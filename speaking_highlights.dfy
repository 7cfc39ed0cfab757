/**
 * The speaking section (src/components/sections/speaking-highlights.tsx): which
 * talks are shown, the badge variant of each talk type, the material links of a
 * talk, and the "And N more speaking engagements" line.
 */
module SpeakingHighlights {
  import opened Wrappers
  import opened Display
  import opened Listing
  import opened ResumeData

  /** Highlight mode keeps keynotes, workshops and invited talks. */
  predicate IsFeatured(t: Talk) {
    t.kind == "keynote" || t.kind == "workshop" || t.kind == "invited"
  }

  /** `talks.filter(isFeatured)`. */
  function Featured(ts: seq<Talk>): (r: seq<Talk>)
    ensures |r| <= |ts|
    ensures forall i :: 0 <= i < |r| ==> IsFeatured(r[i])
  {
    if ts == [] then []
    else Featured(ts[..|ts| - 1]) + (if IsFeatured(ts[|ts| - 1]) then [ts[|ts| - 1]] else [])
  }

  /** Filtering distributes over concatenation, so relative order is kept. */
  lemma {:induction false} FeaturedAppend(a: seq<Talk>, b: seq<Talk>)
    ensures Featured(a + b) == Featured(a) + Featured(b)
    decreases |b|
  {
    if b == [] {
      assert a + b == a;
    } else {
      assert (a + b)[..|a + b| - 1] == a + b[..|b| - 1];
      FeaturedAppend(a, b[..|b| - 1]);
    }
  }

  /** Every featured talk is kept as often as it occurs, and no other talk is. */
  lemma {:induction false} FeaturedCount(ts: seq<Talk>, t: Talk)
    ensures multiset(Featured(ts))[t] == if IsFeatured(t) then multiset(ts)[t] else 0
  {
    if ts != [] {
      var init := ts[..|ts| - 1];
      FeaturedCount(init, t);
      assert ts == init + [ts[|ts| - 1]];
    }
  }

  /** `displayTalks`. */
  function DisplayTalks(mode: Mode, ts: seq<Talk>): (r: seq<Talk>)
    ensures mode == Full ==> r == ts
    ensures mode == Highlight ==> r <= Featured(ts) && |r| == Min(4, |Featured(ts)|)
  {
    if mode == Highlight then Take(Featured(ts), 4) else ts
  }

  /** Highlight mode never shows internal talks, briefings or any other non-featured talk. */
  lemma HighlightOnlyFeatured(ts: seq<Talk>, i: int)
    requires 0 <= i < |DisplayTalks(Highlight, ts)|
    ensures IsFeatured(DisplayTalks(Highlight, ts)[i])
    ensures DisplayTalks(Highlight, ts)[i].kind !in {"internal", "briefing"}
    ensures DisplayTalks(Highlight, ts)[i] in ts
  {
    var f := Featured(ts);
    assert DisplayTalks(Highlight, ts)[i] == f[i];
    FeaturedCount(ts, f[i]);
    assert f[i] in multiset(f);
  }

  function TalkTypeVariant(k: string): Variant {
    match k
    case "keynote" => Destructive
    case "invited" => Info
    case "workshop" => Warning
    case "internal" => Secondary
    case "briefing" => Outline
    case _ => Secondary
  }

  /**
   * Keynote, invited and workshop talks each get their own colour; internal talks
   * share the default colour with every unknown type, and briefings are outlined.
   */
  lemma TalkTypeVariants(k: string)
    ensures TalkTypeVariant(k) == Destructive <==> k == "keynote"
    ensures TalkTypeVariant(k) == Info <==> k == "invited"
    ensures TalkTypeVariant(k) == Warning <==> k == "workshop"
    ensures TalkTypeVariant(k) == Outline <==> k == "briefing"
    ensures TalkTypeVariant(k) == Secondary <==> k !in {"keynote", "invited", "workshop", "briefing"}
  {
  }

  datatype LinkKind = Slides | VideoLink | Coverage

  datatype Link = Link(kind: LinkKind, href: string)

  function Rank(k: LinkKind): nat {
    match k
    case Slides => 0
    case VideoLink => 1
    case Coverage => 2
  }

  /** The material links: the block shows whenever `materials` is set, each link when its URL is truthy. */
  function MaterialLinks(m: Option<Materials>): (r: Option<seq<Link>>)
    ensures r.Some? <==> m.Some?
  {
    match m
    case None => None
    case Some(ms) =>
      Some((if Truthy(ms.slides) then [Link(Slides, ms.slides.value)] else [])
           + (if Truthy(ms.video) then [Link(VideoLink, ms.video.value)] else [])
           + (if Truthy(ms.coverage) then [Link(Coverage, ms.coverage.value)] else []))
  }

  /** Links come in the order slides, video, coverage, each exactly when its field is present. */
  lemma MaterialLinksOrder(ms: Materials)
    ensures var links := MaterialLinks(Some(ms)).value;
            (forall i, j :: 0 <= i < j < |links| ==> Rank(links[i].kind) < Rank(links[j].kind))
            && (Link(Slides, ms.slides.GetOr("")) in links <==> Truthy(ms.slides))
            && (Link(VideoLink, ms.video.GetOr("")) in links <==> Truthy(ms.video))
            && (Link(Coverage, ms.coverage.GetOr("")) in links <==> Truthy(ms.coverage))
  {
  }

  datatype Card = Card(entry: Talk, badge: Variant, description: Option<string>, links: Option<seq<Link>>)

  function MakeCard(t: Talk): Card {
    Card(t, TalkTypeVariant(t.kind), Shown(t.description), MaterialLinks(t.materials))
  }

  /** "And N more speaking engagements...": counted against the whole list, not the filtered one. */
  function MoreEngagements(mode: Mode, ts: seq<Talk>): (r: Option<int>)
    ensures r.Some? <==> mode == Highlight && |ts| > 4
    ensures r.Some? ==> r.value == |ts| - 4 && r.value > 0
  {
    if mode == Highlight && |ts| > 4 then Some(|ts| - 4) else None
  }

  /**
   * The count on the "And N more" line equals the number of talks left out exactly
   * when at least four talks are featured; otherwise it is smaller than that number.
   */
  lemma MoreCountVersusHidden(ts: seq<Talk>)
    requires |ts| > 4
    ensures var n, hidden := MoreEngagements(Highlight, ts).value, |ts| - |DisplayTalks(Highlight, ts)|;
            (n == hidden <==> |Featured(ts)| >= 4) && n <= hidden
  {
  }

  datatype View = View(title: string, cards: seq<Card>, more: Option<int>)

  function Render(mode: Mode, ts: seq<Talk>): (v: View)
    ensures |v.cards| == |DisplayTalks(mode, ts)|
    ensures forall i :: 0 <= i < |v.cards| ==> v.cards[i].entry == DisplayTalks(mode, ts)[i]
    ensures v.more == MoreEngagements(mode, ts)
  {
    var shown := DisplayTalks(mode, ts);
    View(if mode == Highlight then "Speaking Highlights" else "Speaking Engagements",
         seq(|shown|, i requires 0 <= i < |shown| => MakeCard(shown[i])),
         MoreEngagements(mode, ts))
  }
}
