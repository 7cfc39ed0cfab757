/**
 * The font-size options (src/lib/font-size-utils.ts): one configuration per size,
 * and the lookup of a size's configuration and label.
 */
module FontSizeUtils {
  import opened Wrappers
  import opened FontSizeHook

  /** The three icons of the picker, by their names in the icon library. */
  datatype Icon = TypeIcon | ALargeSmall | AArrowUp

  /** `label` is a reserved word here, so the label field is called `title`. */
  datatype FontSizeConfig = FontSizeConfig(name: FontSize, title: string, multiplier: real, icon: Icon, description: string)

  const FontSizeConfigs: seq<FontSizeConfig> := [
    FontSizeConfig(Normal, "Normal", 1.0, TypeIcon, "Default text size"),
    FontSizeConfig(Large, "Large", 1.25, ALargeSmall, "Larger text for better readability"),
    FontSizeConfig(ExtraLarge, "Extra Large", 1.5, AArrowUp, "Maximum text size for accessibility")
  ]

  /** `configs.find(config => config.name === fontSize)`: the first configuration with that name. */
  function FindConfig(configs: seq<FontSizeConfig>, f: FontSize): (r: Option<FontSizeConfig>)
    ensures r.None? <==> forall i :: 0 <= i < |configs| ==> configs[i].name != f
    ensures r.Some? ==> exists i :: 0 <= i < |configs| && configs[i] == r.value && r.value.name == f
                                    && forall j :: 0 <= j < i ==> configs[j].name != f
  {
    if configs == [] then None
    else if configs[0].name == f then Some(configs[0])
    else
      var r := FindConfig(configs[1..], f);
      assert r.Some? ==> exists i :: 0 <= i < |configs[1..]| && configs[1..][i] == r.value && r.value.name == f
                                     && forall j :: 0 <= j < i ==> configs[1..][j].name != f;
      assert forall i :: 0 <= i < |configs[1..]| ==> configs[1..][i] == configs[i + 1];
      r
  }

  /** `find(...) ?? configs[0]`: the first configuration named `f`, or the first one of all when none is. */
  function ConfigOrFirst(configs: seq<FontSizeConfig>, f: FontSize): (r: FontSizeConfig)
    requires configs != []
    ensures r in configs
    ensures (exists i :: 0 <= i < |configs| && configs[i].name == f) ==> r.name == f
    ensures (forall i :: 0 <= i < |configs| ==> configs[i].name != f) ==> r == configs[0]
  {
    FindConfig(configs, f).GetOr(configs[0])
  }

  /** `getFontSizeConfig`: the configuration named `fontSize`, falling back to the first one. */
  function GetFontSizeConfig(f: FontSize): (r: FontSizeConfig)
    ensures r.name == f && r in FontSizeConfigs
  {
    NeverFallsBack(f);
    ConfigOrFirst(FontSizeConfigs, f)
  }

  /** Every size has a configuration, so the fallback to the first one is never taken. */
  lemma NeverFallsBack(f: FontSize)
    ensures FindConfig(FontSizeConfigs, f).Some?
  {
    assert FontSizeConfigs[0].name == Normal && FontSizeConfigs[1].name == Large && FontSizeConfigs[2].name == ExtraLarge;
  }

  /** `getFontSizeLabel`. */
  function GetFontSizeLabel(f: FontSize): string {
    GetFontSizeConfig(f).title
  }

  /** The labels shown in the picker, one per size, all different. */
  lemma Labels(f: FontSize, g: FontSize)
    ensures GetFontSizeLabel(Normal) == "Normal"
    ensures GetFontSizeLabel(Large) == "Large"
    ensures GetFontSizeLabel(ExtraLarge) == "Extra Large"
    ensures GetFontSizeLabel(f) == GetFontSizeLabel(g) <==> f == g
  {
  }

  /** The configurations list each size once, from the smallest text to the largest. */
  lemma ConfigsOrdered()
    ensures |FontSizeConfigs| == 3
    ensures forall f :: FontSizeConfigs[Position(f)].name == f
    ensures forall i, j :: 0 <= i < j < |FontSizeConfigs| ==>
              FontSizeConfigs[i].name != FontSizeConfigs[j].name
              && FontSizeConfigs[i].multiplier < FontSizeConfigs[j].multiplier
  {
  }

  /** Where a size sits in the list, smallest first. */
  function Position(f: FontSize): (i: nat)
    ensures i < |FontSizeConfigs|
  {
    match f
    case Normal => 0
    case Large => 1
    case ExtraLarge => 2
  }
}
