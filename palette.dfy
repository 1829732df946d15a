/** The colour and visibility rules: `getColors` (time-of-day phase, then the
    storm/rain override, then, in NYC.jsx and chicago.jsx, the fog
    override), the celestial body, the time-of-day label, the label culling
    and the snow rule for trees. Colours are tags, not hex strings. */
module Palette {
  import opened Scenes

  datatype Weather = Clear | Rain | Snow | Storm | Fog

  datatype Phase = Night | Sunset | Day

  /** `isNight = timeOfDay > 0.75`, `isSunset = timeOfDay > 0.6 && timeOfDay <= 0.75`. */
  function PhaseOf(t: real): (p: Phase)
    ensures p == Night <==> t > 0.75
    ensures p == Sunset <==> 0.6 < t <= 0.75
    ensures p == Day <==> t <= 0.6
  {
    if t > 0.75 then Night else if t > 0.6 && t <= 0.75 then Sunset else Day
  }

  /** Where a colour came from: the phase's base table, or one of the two
      weather override tables. */
  datatype Swatch = Base(phase: Phase) | StormTone | FogTone

  /** The palette keys the overrides touch, one field each; `scenery` is the
      one scene-specific key the storm may also darken (HongKong.jsx
      `mountain`, Philadelphia.jsx `tree`, Tokyo.jsx `fuji`), and `lines`
      stands for every other key (primary, accent, grid, ...). */
  datatype Colours = Colours(sky1: Swatch, sky2: Swatch, sky3: Swatch, sky4: Swatch, water: Swatch, scenery: Swatch, lines: Swatch)

  function BaseColours(p: Phase): (c: Colours)
    ensures c.sky1 == c.sky2 == c.sky3 == c.sky4 == c.water == c.scenery == c.lines == Base(p)
  {
    Colours(Base(p), Base(p), Base(p), Base(p), Base(p), Base(p), Base(p))
  }

  /** The scenes whose storm override also sets the scenery key. */
  predicate StormDarkensScenery(city: City)
  {
    city == HongKong || city == Philadelphia || city == Tokyo
  }

  /** The scenes that have a fog override. */
  predicate HasFogOverride(city: City)
  {
    city == NewYork || city == Chicago
  }

  predicate Stormy(w: Weather)
  {
    w == Storm || w == Rain
  }

  /** `if (isStormy) { base.sky1 = ...; ...; base.water = ...; }`. */
  function StormOverride(city: City, c: Colours): (r: Colours)
    ensures r.sky1 == r.sky2 == r.sky3 == r.sky4 == r.water == StormTone
    ensures r.scenery == if StormDarkensScenery(city) then StormTone else c.scenery
    ensures r.lines == c.lines
  {
    var r := c.(sky1 := StormTone, sky2 := StormTone, sky3 := StormTone, sky4 := StormTone, water := StormTone);
    if StormDarkensScenery(city) then r.(scenery := StormTone) else r
  }

  /** `if (isFoggy) { base.sky1 = ...; ...; base.sky4 = ...; }`. */
  function FogOverride(c: Colours): (r: Colours)
    ensures r.sky1 == r.sky2 == r.sky3 == r.sky4 == FogTone
    ensures r.water == c.water && r.scenery == c.scenery && r.lines == c.lines
  {
    c.(sky1 := FogTone, sky2 := FogTone, sky3 := FogTone, sky4 := FogTone)
  }

  /** `getColors()`: the phase table, then the storm override, then the fog
      override where the scene has one. */
  function GetColors(city: City, t: real, w: Weather): Colours
  {
    var base := BaseColours(PhaseOf(t));
    var stormed := if Stormy(w) then StormOverride(city, base) else base;
    if HasFogOverride(city) && w == Fog then FogOverride(stormed) else stormed
  }

  /** What `getColors` promises: the line colours always follow the phase;
      storm or rain changes only the four sky bands, the water and (in three
      scenes) the scenery key; fog changes only the sky bands, and only in the
      two scenes that have the override; otherwise the phase table is used as
      is. */
  lemma GetColorsOverrides(city: City, t: real, w: Weather)
    ensures GetColors(city, t, w).lines == Base(PhaseOf(t))
    ensures Stormy(w) ==>
      GetColors(city, t, w) ==
        Colours(StormTone, StormTone, StormTone, StormTone, StormTone,
                if StormDarkensScenery(city) then StormTone else Base(PhaseOf(t)), Base(PhaseOf(t)))
    ensures w == Fog && HasFogOverride(city) ==>
      GetColors(city, t, w) ==
        Colours(FogTone, FogTone, FogTone, FogTone, Base(PhaseOf(t)), Base(PhaseOf(t)), Base(PhaseOf(t)))
    ensures !Stormy(w) && !(w == Fog && HasFogOverride(city)) ==> GetColors(city, t, w) == BaseColours(PhaseOf(t))
  {
  }

  /** Storm and fog exclude each other, so the order of the two overrides is
      immaterial: applying fog first would give the same colours. */
  lemma OverrideOrderImmaterial(city: City, t: real, w: Weather)
    ensures var base := BaseColours(PhaseOf(t));
      var fogged := if HasFogOverride(city) && w == Fog then FogOverride(base) else base;
      GetColors(city, t, w) == (if Stormy(w) then StormOverride(city, fogged) else fogged)
  {
  }

  datatype Celestial = NoBody | Moon | Sun

  /** `renderCelestial`: nothing in storm or fog; the moon after 0.7; the sun
      before 0.3 or between 0.6 and 0.7. */
  function CelestialOf(t: real, w: Weather): (c: Celestial)
    ensures c == Moon <==> w != Storm && w != Fog && t > 0.7
    ensures c == Sun <==> w != Storm && w != Fog && (t < 0.3 || 0.6 < t <= 0.7)
  {
    if w == Storm || w == Fog then NoBody
    else if t > 0.7 then Moon
    else if t < 0.3 || t > 0.6 then Sun
    else NoBody
  }

  /** The sky body agrees with the palette: a clear or snowy night shows the
      moon, a clear midday shows neither body, and the sunset palette always
      shows a body outside storm and fog. */
  lemma CelestialMatchesPhase(t: real, w: Weather)
    ensures w != Storm && w != Fog && PhaseOf(t) == Night ==> CelestialOf(t, w) == Moon
    ensures w != Storm && w != Fog && PhaseOf(t) == Sunset ==> CelestialOf(t, w) != NoBody
    ensures 0.3 <= t <= 0.6 ==> CelestialOf(t, w) == NoBody
  {
  }

  datatype PhaseLabel = SunriseLabel | DayLabel | SunsetLabel | NightLabel

  /** The time-of-day label as every scene writes it under the slider (in the
      scene's own language): strict thresholds 0.25, 0.6, 0.75. */
  function LabelAsWritten(t: real): (l: PhaseLabel)
    ensures l == SunsetLabel <==> 0.6 <= t < 0.75
    ensures l == NightLabel <==> t >= 0.75
  {
    if t < 0.25 then SunriseLabel else if t < 0.6 then DayLabel else if t < 0.75 then SunsetLabel else NightLabel
  }

  /** A label names a palette phase (sunrise and day both use the day table). */
  predicate Names(l: PhaseLabel, p: Phase)
  {
    match l
    case SunriseLabel => p == Day
    case DayLabel => p == Day
    case SunsetLabel => p == Sunset
    case NightLabel => p == Night
  }

  /** The written label disagrees with the palette exactly at the two
      boundary values: at 0.6 it says sunset over the day palette and at 0.75
      it says night over the sunset palette. */
  lemma LabelAsWrittenDisagrees(t: real)
    ensures !Names(LabelAsWritten(t), PhaseOf(t)) <==> t == 0.6 || t == 0.75
  {
  }

  /** The label with the palette's own thresholds. */
  function Label(t: real): (l: PhaseLabel)
    ensures Names(l, PhaseOf(t))
    ensures l == SunriseLabel <==> t < 0.25
  {
    if t < 0.25 then SunriseLabel else if t <= 0.6 then DayLabel else if t <= 0.75 then SunsetLabel else NightLabel
  }

  /** A building label is drawn iff info is on, there is no storm, the building
      is named and its projected depth is not below minus the scene's cull
      distance. */
  function LabelShown(city: City, showInfo: bool, w: Weather, named: bool, depth: real): (shown: bool)
    ensures shown <==> showInfo && w != Storm && named && depth >= -LabelCull(city)
  {
    showInfo && w != Storm && named && !(depth < -LabelCull(city))
  }

  /** Labels nearer than 200 (above depth -200) survive culling in every
      scene; Tokyo culls the most and chicago the least. */
  lemma LabelCullOrder(city: City, depth: real)
    ensures depth >= -200.0 ==> LabelShown(city, true, Clear, true, depth)
    ensures LabelShown(city, true, Clear, true, depth) ==> depth >= -350.0
    ensures LabelShown(Tokyo, true, Clear, true, depth) ==> LabelShown(city, true, Clear, true, depth)
    ensures LabelShown(city, true, Clear, true, depth) ==> LabelShown(Chicago, true, Clear, true, depth)
  {
  }

  /** `renderTrees` in Philadelphia.jsx draws no trees in snow. */
  function TreesDrawn(w: Weather): (drawn: bool)
    ensures drawn <==> w != Snow
  {
    w != Snow
  }

  /** `renderSnow` (Philadelphia.jsx, and likewise Moscow.jsx, NYC.jsx and
      chicago.jsx) draws its flakes only in snow. */
  function SnowDrawn(w: Weather): (drawn: bool)
    ensures drawn ==> !Stormy(w) && w != Fog
  {
    w == Snow
  }

  /** In every weather exactly one of the two Philadelphia layers is drawn:
      the trees or the falling snow, never both and never neither. */
  lemma TreesOrSnow(w: Weather)
    ensures TreesDrawn(w) <==> !SnowDrawn(w)
  {
  }

  /** Whenever the trees are drawn, their `tree` colour is the storm tone in
      storm or rain and the phase's own otherwise (Philadelphia.jsx has no fog
      override); in snow, where they are hidden, the key keeps the phase's
      colour. */
  lemma TreeTone(t: real, w: Weather)
    ensures TreesDrawn(w) ==>
      GetColors(Philadelphia, t, w).scenery == (if Stormy(w) then StormTone else Base(PhaseOf(t)))
    ensures !TreesDrawn(w) ==> GetColors(Philadelphia, t, w).scenery == Base(PhaseOf(t))
  {
    GetColorsOverrides(Philadelphia, t, w);
  }
}
