/**
 * The viewer's index page: the table of characters it lists and the
 * colour-class lookup that styles each card. Only the data and the
 * lookup are modelled; the markup is not.
 */
module IndexPage {
  import opened Wrappers
  import opened JsSplit

  /** One card of the index page. */
  datatype ModelCard = ModelCard(
    name: string,
    description: string,
    path: string,
    icon: string,
    color: string,
    features: seq<string>)

  const MODELS: seq<ModelCard> := [
    ModelCard("Hiyori", "Modelo oficial da Live2D com animações complexas", "/hiyori", "🎭", "pink",
              ["Idle", "Flick", "Tap", "Tap@Body", "Flick@Body"]),
    ModelCard("Rice", "Modelo simples com animações básicas", "/rice", "🍚", "orange", ["Idle", "Motion"]),
    ModelCard("Shizuku", "Modelo com animações numeradas", "/shizuku", "🌸", "purple", ["01", "02", "03", "04"]),
    ModelCard("Haru", "Modelo com animações de movimento e toque", "/haru", "🌸", "red", ["Idle", "Motion", "Tap"]),
    ModelCard("Mao", "Modelo felino com animações de movimento", "/mao", "🐱", "amber", ["mtn_01", "mtn_02", "mtn_03"]),
    ModelCard("Mark", "Modelo masculino com animações simples", "/mark", "👨", "slate", ["Aleatória"]),
    ModelCard("Natori", "Modelo com expressões e movimentos", "/natori", "🎭", "pink", ["Idle", "Motion"]),
    ModelCard("Wanko", "Modelo canino com animações de repouso", "/wanko", "🐕", "yellow", ["Idle", "Motion"]),
    ModelCard("Hiyori Free EN", "Versão em inglês do modelo Hiyori", "/hiyori_free_en", "🇺🇸", "blue", ["Idle", "Motion"])
  ]

  /**
   * The colour lookup. Each entry is the four classes of its hue joined by
   * single spaces, e.g. "border-pink-500 text-pink-500 bg-pink-500/10
   * hover:bg-pink-500/20" for "pink".
   */
  const COLOR_MAP: map<string, string> := map[
    "pink" := ClassString("pink"),
    "orange" := ClassString("orange"),
    "purple" := ClassString("purple"),
    "red" := ClassString("red"),
    "amber" := ClassString("amber"),
    "slate" := ClassString("slate"),
    "yellow" := ClassString("yellow"),
    "blue" := ClassString("blue")
  ]

  /** Classes of a card whose colour is not in the map. */
  const DEFAULT_COLOR_CLASSES: string := ClassString("gray")

  /** The four classes every entry of the lookup is made of, for one hue. */
  function ClassTokens(hue: string): seq<string> {
    ["border-" + hue + "-500", "text-" + hue + "-500", "bg-" + hue + "-500/10", "hover:bg-" + hue + "-500/20"]
  }

  /** The class string of one hue: its four classes separated by single spaces. */
  function ClassString(hue: string): string {
    var ts := ClassTokens(hue);
    ts[0] + " " + ts[1] + " " + ts[2] + " " + ts[3]
  }

  /** A class string is its four classes joined by the separator `split` is later given. */
  lemma ClassStringIsJoin(hue: string)
    ensures ClassString(hue) == Join(ClassTokens(hue), ' ')
  {
    var ts := ClassTokens(hue);
    assert Join(ts[3..], ' ') == ts[3];
    assert Join(ts[2..], ' ') == ts[2] + " " + ts[3] by { assert ts[2..][1..] == ts[3..]; }
    assert Join(ts[1..], ' ') == ts[1] + " " + ts[2] + " " + ts[3] by { assert ts[1..][1..] == ts[2..]; }
  }

  /** `colorMap[color] || default`: an absent or empty entry falls back to gray. */
  function GetColorClasses(color: string): (r: string)
    ensures r != ""
    ensures r in COLOR_MAP.Values || r == DEFAULT_COLOR_CLASSES
  {
    if color in COLOR_MAP && COLOR_MAP[color] != "" then COLOR_MAP[color] else DEFAULT_COLOR_CLASSES
  }

  /** The hue a colour is drawn in: itself when mapped, gray otherwise. */
  function Hue(color: string): string {
    if color in COLOR_MAP then color else "gray"
  }

  /** Every result of the lookup is the four classes of its hue joined by single spaces. */
  lemma ColorClassesShape(color: string)
    ensures ' ' !in Hue(color)
    ensures GetColorClasses(color) == ClassString(Hue(color))
  {
  }

  /** `getColorClasses(color).split(" ")` gives exactly the four classes of the colour's hue. */
  lemma ColorClassesSplit(color: string)
    ensures Split(GetColorClasses(color), ' ') == ClassTokens(Hue(color))
  {
    var ts := ClassTokens(Hue(color));
    ColorClassesShape(color);
    ClassStringIsJoin(Hue(color));
    assert forall i :: 0 <= i < |ts| ==> ' ' !in ts[i];
    SplitJoin(ts, ' ');
  }

  /** Different space-free hues give different class strings. */
  lemma ClassStringInjective(hue1: string, hue2: string)
    requires ' ' !in hue1 && ' ' !in hue2
    requires ClassString(hue1) == ClassString(hue2)
    ensures hue1 == hue2
  {
    var ts1, ts2 := ClassTokens(hue1), ClassTokens(hue2);
    ClassStringIsJoin(hue1);
    ClassStringIsJoin(hue2);
    assert forall i :: 0 <= i < |ts1| ==> ' ' !in ts1[i];
    assert forall i :: 0 <= i < |ts2| ==> ' ' !in ts2[i];
    SplitJoin(ts1, ' ');
    SplitJoin(ts2, ' ');
    assert ts1[0] == ts2[0];
    assert |hue1| == |hue2|;
    assert hue1 == ts1[0][7..7 + |hue1|];
  }

  /** The gray default is returned exactly for colours that are not keys of the map. */
  lemma FallbackExactlyForUnmapped(color: string)
    ensures GetColorClasses(color) == DEFAULT_COLOR_CLASSES <==> color !in COLOR_MAP
  {
    ColorClassesShape(color);
    if color in COLOR_MAP && GetColorClasses(color) == DEFAULT_COLOR_CLASSES {
      ClassStringInjective(color, "gray");
    }
  }

  /** Two different mapped colours never share a class string. */
  lemma MappedColorsDistinct(color1: string, color2: string)
    requires color1 in COLOR_MAP && color2 in COLOR_MAP && color1 != color2
    ensures GetColorClasses(color1) != GetColorClasses(color2)
  {
    ColorClassesShape(color1);
    ColorClassesShape(color2);
    if GetColorClasses(color1) == GetColorClasses(color2) {
      ClassStringInjective(color1, color2);
    }
  }

  /** The first class is a border class and the third a background class. */
  lemma ClassTokenPrefixes(hue: string)
    ensures |ClassTokens(hue)[0]| >= 7 && ClassTokens(hue)[0][..7] == "border-"
    ensures |ClassTokens(hue)[2]| >= 3 && ClassTokens(hue)[2][..3] == "bg-"
  {
  }

  /** `getColorClasses(color).split(" ")[0]`, the card's border class. */
  function CardBorderClass(color: string): (r: Option<string>)
    ensures r == Some("border-" + Hue(color) + "-500")
    ensures r.Some? && |r.value| >= 7 && r.value[..7] == "border-"
  {
    ColorClassesSplit(color);
    ClassTokenPrefixes(Hue(color));
    TokenAt(GetColorClasses(color), ' ', 0)
  }

  /** `getColorClasses(color).split(" ")[2]`, the play button's background class. */
  function PlayButtonClass(color: string): (r: Option<string>)
    ensures r == Some("bg-" + Hue(color) + "-500/10")
    ensures r.Some? && |r.value| >= 3 && r.value[..3] == "bg-"
  {
    ColorClassesSplit(color);
    ClassTokenPrefixes(Hue(color));
    TokenAt(GetColorClasses(color), ' ', 2)
  }

  /** Every card's colour is a key of the map, so no card is drawn with the gray fallback. */
  lemma ModelColorsMapped()
    ensures forall i :: 0 <= i < |MODELS| ==> MODELS[i].color in COLOR_MAP
    ensures forall i :: 0 <= i < |MODELS| ==>
      CardBorderClass(MODELS[i].color) == Some("border-" + MODELS[i].color + "-500")
  {
  }

  /** The card paths (the list keys) are pairwise distinct, and there are nine cards. */
  lemma ModelPathsDistinct()
    ensures |MODELS| == 9
    ensures forall i, j :: 0 <= i < j < |MODELS| ==> MODELS[i].path != MODELS[j].path
  {
  }
}
