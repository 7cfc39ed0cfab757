/**
 * The awards part of the speaking page (src/app/speaking/page.tsx): one card per
 * award, with a badge coloured by the award's level and a year line when known.
 */
module SpeakingPage {
  import opened Wrappers
  import opened Display
  import opened ResumeData

  function LevelVariant(level: string): Variant {
    match level
    case "national" => Destructive
    case "university" => Info
    case "regional" => Warning
    case _ => Secondary
  }

  /** Each colour but the default names one level, and every other level falls back to it. */
  lemma LevelVariants(level: string)
    ensures LevelVariant(level) == Destructive <==> level == "national"
    ensures LevelVariant(level) == Info <==> level == "university"
    ensures LevelVariant(level) == Warning <==> level == "regional"
    ensures level !in {"national", "university", "regional"} <==> LevelVariant(level) == Secondary
  {
  }

  datatype AwardCard = AwardCard(entry: Award, badge: Variant, year: Option<string>)

  /** `awards.map(...)`: one card per award, in order; the year only when truthy. */
  function AwardCards(awards: seq<Award>): (r: seq<AwardCard>)
    ensures |r| == |awards|
    ensures forall i :: 0 <= i < |r| ==>
              r[i].entry == awards[i] && r[i].badge == LevelVariant(awards[i].level)
              && (r[i].year.Some? <==> Truthy(awards[i].year))
              && (r[i].year.Some? ==> r[i].year == awards[i].year)
  {
    seq(|awards|, i requires 0 <= i < |awards| => AwardCard(awards[i], LevelVariant(awards[i].level), Shown(awards[i].year)))
  }

  /** Reading the entries back off the cards gives the award list itself. */
  lemma CardsCoverAwards(awards: seq<Award>)
    ensures var r := AwardCards(awards);
            seq(|r|, i requires 0 <= i < |r| => r[i].entry) == awards
  {
  }
}
