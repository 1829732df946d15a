# Wireframe cities: a verified model of the shared scene engine

The seven city scenes (Tokyo, Moscow, New York, Hong Kong, Sydney, Philadelphia
and Chicago) each carry their own copy of one small wireframe engine. This
project models that engine once, with the constants that differ between scenes
kept in the `Scenes` module: the autorotate step, the screen-centre height, the
window spacing and the label cull depth.

- **Camera** (`camera.dfy`). The camera record (yaw, pitch, zoom, pan), the
  drag state and the pointer, wheel and tick handlers. Each React updater is a
  pure function on values. The class `Camera.SceneController` holds the state
  and applies those functions, keeping pitch and zoom inside their clamps.
- **Projection** (`projection.dfy`). `project`: yaw then pitch, the
  perspective divide `500 zoom / (depth + 600)`, the pan and the screen
  offset. The cosines and sines of the camera angles are parameters.
- **Geometry generators.** Each landmark is a method that appends world-space
  segments, each tagged with its render hint (`Geometry.Hint`), in the order
  the scene pushes them. Each method states its whole output exactly: it is
  proved equal to a specification function applied to its inputs (a loop to
  a recursive function over the loop index), or, for a fixed sequence of
  pushes, it states every line by index. Lemmas about those functions give
  the line counts per hint and the geometric facts: contiguity, taper,
  height bounds and symmetry. The
  generators are split by archetype:
  - the default prism and box-based towers (`prism.dfy`, `prism_towers.dfy`);
  - stepped setback towers (`setback.dfy`, `setback_towers.dfy`);
  - twisted towers (`twisted.dfy`);
  - the Tokyo Tower lattice (`lattice.dfy`);
  - tapered towers (`tapered.dfy`);
  - towers with crowns, decks and statues (`crowned.dfy`);
  - the convention-centre roof and the mountains (`shells.dfy`);
  - the Brooklyn and Harbour bridges (`bridges.dfy`).
- **Palette and visibility** (`palette.dfy`). The time-of-day phase, then the
  storm/rain override, then the fog override where a scene has one. Also the
  celestial body, the time-of-day label, label culling and the snow rule for
  trees. Colours are tags, not hex strings.
- **Painter's sort** (`depth_sort.dfy`). Buildings are keyed by projected
  depth and sorted farthest first, stably. The result is proved ordered and a
  permutation of its input.
- **Particles** (`particles.dfy`). JavaScript's `%` on reals, whose remainder
  takes the sign of the dividend. On top of it, the snow, rain, car-light and
  sailboat-lane formulas.

`Math.PI`, `Math.cos` and `Math.sin` enter the curved generators through the
`Geometry.Trig` parameter. No fact about their values is assumed beyond what
each lemma states as a hypothesis.

## Model

| member | source | states |
|---|---|---|
| Scenes.WindowSpacing | NYC.jsx:314 | the window-band spacing of every scene is 12, 14 or 18 |
| Scenes.AutoRotateStep | Tokyo.jsx:79-81 | the yaw added per autorotate tick lies between 0.0012 (Tokyo) and 0.002 (chicago) |
| Scenes.CentreY | chicago.jsx:222 | the projection centre sits at screen y 330 in every scene except chicago |
| Scenes.LabelCull | Tokyo.jsx:1256 | the label cull depth of every scene lies between 200 and 350 |
| Camera.Clamp | Tokyo.jsx:109 | `Math.max(lo, Math.min(hi, v))` lands in [lo, hi], leaves an in-range value alone and sends a value outside to the nearer bound |
| Camera.ClampIdempotent | Tokyo.jsx:109 | clamping an already clamped value changes nothing |
| Camera.InitialCamera | Tokyo.jsx:6-12 | each scene starts at zoom 1 with no pan, pitch and zoom inside the clamped ranges, a slight yaw and a slight downward pitch |
| Camera.Rotated | Tokyo.jsx:105-110 | a rotate drag adds 0.004 dx to yaw without bound, keeps pitch in [-0.3, 1.0] (moving it by exactly 0.003 dy when that stays inside) and leaves zoom and pan alone |
| Camera.Panned | Tokyo.jsx:111-112 | a pan drag moves the pan offset by exactly (dx, dy) and leaves rotation and zoom alone |
| Camera.Zoomed | Tokyo.jsx:119-125 | the wheel keeps zoom in [0.4, 2.5], changes nothing else, never zooms in on a downward scroll nor out on an upward one |
| Camera.Pressed | Tokyo.jsx:87-95 | pointer down starts a drag at the pointer, in pan mode exactly when shift is held, without moving the camera |
| Camera.Dragged | Tokyo.jsx:97-115 | a move is a no-op unless dragging; otherwise the camera moves by the offset from the last pointer position in the current mode and the pointer is remembered |
| Camera.Released | Tokyo.jsx:117 | pointer up ends the drag and changes nothing else |
| Camera.HandlersKeepRange | Tokyo.jsx:87-125 | every pointer and wheel handler keeps pitch and zoom inside their clamped ranges |
| Camera.IdleDrag | Tokyo.jsx:97-98 | any run of moves without a drag leaves the whole controller state unchanged |
| Camera.PanTelescopes | Tokyo.jsx:97-115 | over a run of pan moves the pan offset moves by the last pointer position minus the one before the run; rotation and zoom stay put |
| Camera.YawTelescopes | Tokyo.jsx:97-115 | over a run of rotate moves yaw moves by 0.004 times the total x offset, pitch stays in range, pan and zoom stay put |
| Camera.ShiftDragPans | Tokyo.jsx:87-115 | shift-press at p0 then moves to pk moves the pan offset by pk - p0 |
| Camera.TickCamera | Tokyo.jsx:79-81 | a tick changes only yaw, and only when autorotate is on and no drag is in progress, by exactly the scene's step |
| Camera.ScanAfter | Tokyo.jsx:78 | after any positive number of ticks the scanline is on screen, in [0, 550) |
| Camera.ScanAfterWraps | Tokyo.jsx:78 | from an on-screen line, n ticks land on line (s + n) mod 550 |
| Camera.SceneController.constructor | Tokyo.jsx:4-16 | the initial state: the scene's camera, no drag, rotate mode, pointer at the origin, autorotate on, time and scanline 0 |
| Camera.SceneController.PointerDown | Tokyo.jsx:87-95 | the stored controls become `Pressed` of the old ones; the range invariant holds; autorotate, time and scanline are untouched |
| Camera.SceneController.PointerMove | Tokyo.jsx:97-115 | the stored controls become `Dragged` of the old ones; the range invariant holds; nothing else changes |
| Camera.SceneController.PointerUp | Tokyo.jsx:117 | the stored controls become `Released` of the old ones; nothing else changes |
| Camera.SceneController.Wheel | Tokyo.jsx:119-125 | the camera becomes `Zoomed` of the old one; drag state, autorotate, time and scanline are untouched |
| Camera.SceneController.Tick | Tokyo.jsx:75-84 | time grows by 0.02, the scanline wraps at 550, the camera takes `TickCamera` with the scene's step, the invariant holds |
| Camera.SceneController.ToggleAutoRotate | Tokyo.jsx:1326 | the autorotate flag flips and nothing else changes |
| Camera.SceneController.SetView | Tokyo.jsx:1340-1365 | the camera jumps to the preset, the drag and animation state is untouched, and an in-range preset keeps the invariant |
| Projection.ViewKeepsLength | Tokyo.jsx:216-224 | with a true cosine/sine pair the yaw-then-pitch rotation keeps a point's distance from the origin |
| Projection.PairKeepsLength | Tokyo.jsx:218-219 | one plane rotation step keeps the squared length of the pair it rotates |
| Projection.Project | Tokyo.jsx:215-236 | the returned depth is the view-space depth, scale times (depth + 600) is 500 zoom, and the screen offset from the centre (450, centre y) plus pan is the view-space x and -y times the scale |
| Projection.StraightAhead | Tokyo.jsx:215-236 | at yaw = pitch = 0, zoom 1 and no pan, a point lands on (450 + x s, centre y - y s) with s = 500 / (z + 600) and depth z |
| Projection.MirrorSymmetric | Tokyo.jsx:215-236 | looking straight ahead, mirror points about x = 0 land on mirror screen points about column 450 + panX at the same height |
| Projection.ScaleFalls | Tokyo.jsx:226-228 | with positive zoom and the nearer point in front of the viewer, a deeper point gets a strictly smaller positive scale |
| Projection.PanShifts | Tokyo.jsx:230-235 | panning shifts the projected point by the pan offset and changes neither depth nor scale |
| DepthSort.BuildingDepth | Tokyo.jsx:1165 | a building's depth is the projected depth of its mid-height point, and its z when the camera looks straight ahead |
| DepthSort.Insert | Tokyo.jsx:1249 | inserting adds exactly one element to the multiset |
| DepthSort.Sort | Tokyo.jsx:1249 | the sort rearranges its input: the multiset and length are kept |
| DepthSort.InsertOrdered | Tokyo.jsx:1249 | stable insertion of an element with a smaller index than all others keeps the painter's order |
| DepthSort.SortOrdered | Tokyo.jsx:1248-1249 | sorting a catalogue-ordered list yields farthest first, equal depths in catalogue order |
| DepthSort.BeforeAsymmetric | Tokyo.jsx:1249 | the painter's order never puts two buildings each before the other |
| DepthSort.OrderedUnique | Tokyo.jsx:1249 | two painter-ordered arrangements of the same buildings are identical, so the comparator's result is determined |
| DepthSort.PaintOrderCorrect | Tokyo.jsx:1247-1250 | every building index is drawn exactly once, depths never increase along the drawing order, and the sorted list is the unique painter-ordered rearrangement |
| Palette.PhaseOf | Tokyo.jsx:129-130 | night exactly above 0.75, sunset exactly in (0.6, 0.75], day exactly at or below 0.6 |
| Palette.BaseColours | Tokyo.jsx:133-196 | without weather every palette key comes from the phase's own table |
| Palette.StormOverride | Tokyo.jsx:199-206 | storm or rain repaints the four sky bands and the water, the scenery key only in Tokyo, HongKong and Philadelphia, and never the line colours |
| Palette.FogOverride | NYC.jsx:194-199 | fog repaints the four sky bands only |
| Palette.GetColorsOverrides | NYC.jsx:127-202 | line colours always follow the phase; each weather yields exactly the documented mix of phase, storm and fog colours; fog has effect only in NYC and chicago |
| Palette.OverrideOrderImmaterial | NYC.jsx:187-199 | applying the fog override before the storm one gives the same palette |
| Palette.CelestialOf | Tokyo.jsx:1144-1164 | the moon shows exactly above 0.7 and the sun exactly before 0.3 or in (0.6, 0.7], never in storm or fog |
| Palette.CelestialMatchesPhase | Tokyo.jsx:1144-1164 | the night palette shows the moon, the sunset palette always shows a body, and midday shows none |
| Palette.LabelAsWritten | Philadelphia.jsx:1097 | the slider label as written: sunset exactly on [0.6, 0.75), night from 0.75 on |
| Palette.LabelAsWrittenDisagrees | Philadelphia.jsx:137-138 | the written label names a different phase from the palette exactly at 0.6 and at 0.75 |
| Palette.Label | Philadelphia.jsx:137-138 | the corrected label always names the palette's phase; sunrise exactly below 0.25 |
| Palette.LabelShown | Tokyo.jsx:1253-1256 | a label is drawn exactly when info is on, there is no storm, the building is named and its depth is not below the scene's cull distance |
| Palette.LabelCullOrder | NYC.jsx:1162 | labels nearer than depth -200 show in every scene, none beyond -350 does, and Tokyo culls the most and chicago the least |
| Palette.TreesDrawn | Philadelphia.jsx:654 | trees are drawn exactly when it does not snow |
| Palette.SnowDrawn | Philadelphia.jsx:837 | falling snow is drawn only in a weather that is neither storm, rain nor fog |
| Palette.TreesOrSnow | Philadelphia.jsx:654 | in every weather exactly one of the two layers is drawn: the trees (guard at line 654) or the falling snow (guard at line 837) |
| Palette.TreeTone | Philadelphia.jsx:204-211 | whenever the trees are drawn their colour is the storm tone in storm or rain and the phase's own otherwise; hidden in snow, the key keeps the phase's colour |
| Particles.Trunc | Moscow.jsx:998 | the quotient `%` uses is truncated toward zero: below q for q >= 0, above it for q < 0, within one |
| Particles.JsRemRange | Moscow.jsx:998 | for the scenes' wrap widths 600, 900 and 1000 (the `WrapWidth` precondition), the remainder lies in [0, m) for a non-negative dividend and in (-m, 0] for a negative one |
| Particles.JsRemPeriodic | Philadelphia.jsx:715 | adding one period to a non-negative dividend leaves the remainder unchanged |
| Particles.SnowY | Moscow.jsx:998 | a falling snowflake's height is always in [0, 600) |
| Particles.SnowX | Moscow.jsx:996-997 | a snowflake's x lies in (-1000, 1000), and in [0, 1000) whenever the wind-driven sum is non-negative |
| Particles.RainY | chicago.jsx:552 | a raindrop's height is always in [0, 600) |
| Particles.RainX | chicago.jsx:545-551 | a raindrop's x lies in (-1000, 1000), and in [0, 1000) whenever the sum is non-negative |
| Particles.CarX | Philadelphia.jsx:715 | a car light's x is always on the road, in [-450, 450) |
| Particles.CarWraps | Philadelphia.jsx:715 | a car reappears at the same x exactly 22.5 time units (900 / 40) later |
| Particles.BoatLane | Sydney.jsx:796 | a sailboat sails in one of the four lanes z = -220, -180, -140, -100 |
| Particles.BoatLanesCycle | Sydney.jsx:796 | boats four apart share a lane and neighbours never do |
| Geometry.CornerOnFootprint | Tokyo.jsx:749-752 | every listed corner of a footprint scaled about the centre lies on both a side plane and a front or back plane of that footprint |
| Geometry.OutlineOnFootprint | Tokyo.jsx:760-767 | both ends of every side of a footprint ring are footprint corners |
| Geometry.UprightsOnFootprint | Tokyo.jsx:754-758 | both ends of every vertical corner edge are footprint corners |
| Geometry.Outline | Tokyo.jsx:760-767 | a footprint ring is four level sides at height y, side i joining corner i to corner i + 1 |
| Geometry.Uprights | Tokyo.jsx:754-758 | the corner pass yields one edge per corner, from the corner at y1 to the same corner at y2 (scales may differ for tapers) |
| Geometry.ToApex | NYC.jsx:575-579 | four lines, one from each footprint corner to the same apex point |
| Geometry.Polygon | Tokyo.jsx:460-466 | an n-gon ring has exactly n sides, side i joining vertex i to vertex i + 1 |
| Geometry.AddPolygon | Tokyo.jsx:460-466 | the ring loop appends exactly the n sides in order, all level at y, each starting where the previous one ends, and adds n to the count of its hint only |
| Geometry.AddOutline | Tokyo.jsx:760-767 | the ring loop appends exactly the footprint ring |
| Geometry.AddUprights | Tokyo.jsx:754-758 | the corner pass appends exactly the four corner edges |
| Geometry.OnTaper | Tokyo.jsx:361-372 | a ring drawn at height t y with scale 1 - t (1 - top) lies on the straight corner edge from the ground footprint to the top footprint scaled by top |
| Geometry.Rims | NYC.jsx:563-572 | two rims per side, 2 m lines in all, all plain |
| Geometry.RimsAt | NYC.jsx:563-572 | line 2 i is side i of the lower rim and line 2 i + 1 side i of the upper rim |
| Geometry.AddRims | NYC.jsx:563-572 | the per-side loop appends exactly both rims of all four sides |
| Geometry.AddAll | Tokyo.jsx:754-758 | a one-line-per-iteration pass appends exactly its lines, in order |
| Geometry.Push | Tokyo.jsx:757 | one push adds the segment at the end, keeps every earlier segment and adds one to the count of its hint only |
| Geometry.Append | Tokyo.jsx:754-758 | a pass that pushes one kind of line keeps the earlier lines, adds its block at the end and raises only its hint's count, by the block's length |
| Prism.FloorLinesBounds | Tokyo.jsx:770-771 | the floor loop draws lines exactly when the building is at least two spacings tall, and then the last one sits a full spacing below the roof |
| Prism.DivBounds | Tokyo.jsx:770 | `Math.floor(h / ws)` spacings fit under h and one more does not; there are two or more exactly when h >= 2 ws |
| Prism.FloorBelowRoof | Tokyo.jsx:771-772 | every floor line drawn is strictly above the ground and at least one spacing below the roof |
| Prism.BoxFrame | Tokyo.jsx:749-767 | the frame is 12 plain lines: the four corner verticals from ground to roof, then the base and roof edge of each side in turn |
| Prism.AddFrontFloors | Tokyo.jsx:770-776 | the floor loop keeps earlier lines and appends exactly `FrontFloors`: n - 1 floor-hinted front edges, the k-th at lo + k ws (none when n < 1) |
| Prism.FrontFloors | Tokyo.jsx:770-776 | m floor-hinted front edges, the k-th at lo + (k + 1) ws |
| Prism.FloorsInsideFrom | Tokyo.jsx:770-776 | lines the floor loop produced lie on the front face, level, strictly between ground and roof |
| Prism.DefaultPrism | Tokyo.jsx:747-777 | the default building is the box frame followed by one front-face floor line per whole spacing strictly between ground and roof: 12 plain lines, floor(h / ws) - 1 floor lines (at least 0), nothing else |
| Prism.SpirePrism | chicago.jsx:498-526 | chicago's default building: the same frame, then exactly the front-face floor lines at f ws for f = 1 .. floor(h / ws) - 1, strictly between ground and roof, then, with the spire flag, the four thin lines from the roof corners to the point 40 above the roof centre |
| Setbacks.NoFloorsTotal | NYC.jsx:366-396 | a pass whose rule draws no floors adds no floor lines |
| Setbacks.EdgeSpans | NYC.jsx:381-391 | a side edge drawn inside a section's height band joins two corners of that section's footprint |
| Setbacks.UprightsSpan | NYC.jsx:373-377 | each corner vertical of a section joins two corners of its footprint inside its band |
| Setbacks.AddSectionFrame | NYC.jsx:373-391 | exactly the section's four corner uprights from its base to its top, then for each side its top edge and, when the rule says so, its base edge; so 8 lines, or 12, all on the section's footprint inside its band with the pass's hint |
| Setbacks.AddSectionSide | NYC.jsx:381-391 | exactly side i's top edge at the section's top, then its base edge at the section's base when the rule says so, both on the section's footprint |
| Setbacks.AddSectionFloors | NYC.jsx:393-399 | exactly the front edges at lo + k ws for k = 1 .. floor((top - lo) / ws) - 1 (none when fewer), each strictly inside the section's band |
| Setbacks.AddSection | NYC.jsx:366-400 | one `forEach` iteration appends exactly the section's frame and, when its rule draws floors, its floor lines; the running tallies stay the per-section sums and every line is owned by a section that placed it |
| Setbacks.TalliedStep | NYC.jsx:366-400 | the tallies after section si + 1 are those after si plus what its frame and floor passes added |
| Setbacks.PlacedFrame | NYC.jsx:373-391 | frame lines are placed by their section and are never floor lines |
| Setbacks.PlacedFloors | NYC.jsx:393-399 | floor lines of a section that draws floors are placed by that section |
| Setbacks.OwnedStep | NYC.jsx:366-400 | lines kept from earlier sections keep their owners and the new lines belong to section si |
| Setbacks.SetbackShaft | NYC.jsx:366-400 | the whole stepped pass is exactly the concatenation of the sections' lines in table order; the line total and per-hint counts are the sums over the sections, every line lies on the footprint of the section that drew it inside that section's band, and every floor line lies strictly inside a section whose rule draws floors |
| SetbackTowers.EmpireSections | NYC.jsx:358-365 | the Empire State table: six sections stacked without gaps from 0 to 290, full size at the base and strictly narrower at every step |
| SetbackTowers.EmpireTotals | NYC.jsx:366-396 | the Empire State pass draws 68 frame lines and 13 floor lines at spacing 14 |
| SetbackTowers.AddMastRings | NYC.jsx:409-420 | exactly the four thin 8-gons, ring r of radius 5 - r at height 300 + 12 r: 32 level lines between heights 300 and 336 |
| SetbackTowers.MastRingsAt | NYC.jsx:410-420 | line k of the mast rings is side k mod 8 of the 8-gon of radius 5 - k / 8 at height 300 + 12 (k / 8) |
| SetbackTowers.MastRingsShape | NYC.jsx:410-420 | every line of the first n mast rings is thin and level, between 300 and the last ring's height 300 + 12 (n - 1) |
| SetbackTowers.AddMastRing | NYC.jsx:411-419 | one pass of the ring loop appends exactly the thin 8-gon of radius 5 - ring at 300 + 12 ring |
| SetbackTowers.EmpireState | NYC.jsx:357-420 | exactly the stepped pass over the six sections (base edges after the first, floors in every section, spacing 14), then the thin mast on the axis from 290 to 350, then the four mast rings: 114 lines, 68 plain, 13 floor, 33 thin |
| SetbackTowers.ChryslerSections | NYC.jsx:425-430 | the Chrysler table: four sections stacked from 0 to 210, strictly narrowing |
| SetbackTowers.CrownNarrows | NYC.jsx:456-458 | the seven crown tiers narrow strictly and stay positive for a building of positive width |
| SetbackTowers.AddCrownTier | NYC.jsx:457-484 | exactly, per side, the edge of the 8-gon of radius CrownRadius(tier) at 210 + 3 tier and, on tiers 0 to 5, the two lines from its ends up to the sunburst peak 6 higher at 1.4 times that radius: 24 lines, or 8 on the top tier |
| SetbackTowers.TierSidesAt | NYC.jsx:457-473 | every third line of a sunburst tier (every line of the top tier) is the next side of the 8-gon of radius CrownRadius(tier) at 210 + 3 tier, so with CrownNarrows the drawn rings narrow tier by tier |
| SetbackTowers.TierSidesShape | NYC.jsx:457-484 | every line of a tier is a crown line starting at 210 + 3 tier and ending there or, on tiers 0 to 5, 6 above it |
| SetbackTowers.AddCrown | NYC.jsx:455-485 | exactly the seven crown tiers bottom first: 152 crown lines, all starting between heights 210 and 228 |
| SetbackTowers.Chrysler | NYC.jsx:423-492 | exactly the stepped pass over the four sections without base edges or floors, then the seven crown tiers, then the thin spire on the axis from 231 to 265: 185 lines |
| SetbackTowers.WillisSections | chicago.jsx:388-393 | the Willis table: four sections stacked from 0 to 290, strictly narrowing |
| SetbackTowers.WillisTotals | chicago.jsx:395-429 | the Willis pass draws 44 frame lines and 11 floor lines at spacing 18 |
| SetbackTowers.Willis | chicago.jsx:387-439 | exactly the stepped pass over the four sections (base edges after the first, floors in every section, spacing 18), then with the antennas flag the two thin masts at x - 10 and x + 10 from 290 to 340: 55 or 57 lines |
| SetbackTowers.AddPyramid | Philadelphia.jsx:369-377 | exactly, per crown corner, the crown line to the apex and then the crown edge to the next corner: 8 lines in that order |
| SetbackTowers.RingsShrink | Philadelphia.jsx:380-382 | the pyramid rings shrink strictly from ring to ring and stay positive |
| SetbackTowers.AddPyramidRings | Philadelphia.jsx:380-391 | exactly rings 1 .. count - 1, ring j the 4-gon of radius hw RingScale(j) at base + j dy: 4 level crown-ring lines each, all strictly above the crown base and at most at the top ring |
| SetbackTowers.PyramidRingsAt | Philadelphia.jsx:380-391 | line k of the rings is side k mod 4 of ring j = k / 4 + 1, of radius hw RingScale(j) at base + j dy, so with RingsShrink the drawn rings shrink upwards |
| SetbackTowers.AddPyramidRing | Philadelphia.jsx:383-390 | exactly the level 4-gon of the given radius at its height, vertices on the diagonals: four crown-ring lines |
| SetbackTowers.RingAbove | Philadelphia.jsx:380-381 | ring heights 1 .. count - 1 lie strictly above the base and at most at the last ring |
| SetbackTowers.LibertyOneSections | Philadelphia.jsx:313-317 | One Liberty's table: three sections from 0 to 250, strictly narrowing |
| SetbackTowers.LibertyTwoSections | Philadelphia.jsx:397-401 | Two Liberty's table: three sections from 0 to 220, strictly narrowing |
| SetbackTowers.LibertyTotals | Philadelphia.jsx:346-354 | with floors only in the first section, One Liberty draws 13 floor lines and Two Liberty 11, and each 32 frame lines |
| SetbackTowers.LibertyOne | Philadelphia.jsx:311-393 | exactly the stepped pass over the three sections (floors only in the ground section), the 8 pyramid lines from the 0.55 square at 250 to the apex h + 45, and rings 1 .. 3 at 250 + 12 j of scale 0.55 (1 - 0.2 j): 65 lines |
| SetbackTowers.LibertyTwo | Philadelphia.jsx:395-473 | exactly the stepped pass over the three sections, the 8 pyramid lines from the 0.5 square at 220 to the apex h + 40, and rings 1 .. 2 at 220 + 10 j of scale 0.5 (1 - 0.22 j): 59 lines |
| SetbackTowers.MercurySections | Moscow.jsx:415-419 | Mercury City's table: three sections covering the whole height, strictly narrowing |
| SetbackTowers.BandBelowSetback | Moscow.jsx:447-449 | every Mercury floor band lies at or above the ground and below the first setback at 0.7 h |
| SetbackTowers.AddMercuryBands | Moscow.jsx:447-452 | the band loop adds 18 floor lines, band f the front edge at (f / 18) 0.7 h |
| SetbackTowers.Mercury | Moscow.jsx:408-453 | 42 lines: the first 24 are exactly the stepped pass (golden verticals and top edges, no base edges or floors), each placed by its section, then the 18 floor bands, band f the front edge at (f / 18) 0.7 h |
| SetbackTowers.StalinistTiers | Moscow.jsx:505-511 | the wedding-cake table: five tiers stacked from 0 to 0.95 h, strictly narrowing |
| SetbackTowers.AddStar | Moscow.jsx:550-559 | the pentagram adds 5 star lines, line i joining vertex i to vertex i + 2 |
| SetbackTowers.StalinistTower | Moscow.jsx:503-560 | 50 lines: the first 44 are exactly the stepped pass over the five tiers (base edges on the ground tier only), each placed by its tier, then the spire from 0.95 h to h + 30, then the five star lines at h + 30 |
| PrismTowers.Outlines | NYC.jsx:517-527 | m full-footprint rings, 4 m lines, every one level and carrying the given hint |
| PrismTowers.OutlinesAt | NYC.jsx:519-526 | line k of the rings is side k mod 4 of the ring at height (k / 4 + 1) ws |
| PrismTowers.AddOutlines | NYC.jsx:519-527 | the grid loop for f = 1 .. n - 1 appends exactly those rings and raises only its hint's count |
| PrismTowers.OutlinesInside | NYC.jsx:518-520 | with floor(h / ws) - 1 rings, every ring lies strictly between the ground and the roof |
| PrismTowers.Slender | NYC.jsx:494-528 | 432 Park: the box frame, then a full ring every 10 units strictly between ground and roof, 4 (floor(h / 10) - 1) floor lines (at least 0) |
| PrismTowers.Gothic | NYC.jsx:530-580 | Woolworth: shaft verticals to 0.8 h, the base ring, crown edges tapering from full size at 0.8 h to 0.4 at h, the crown rims per side, and four thin pinnacle lines to h + 18: 24 lines, 20 plain and 4 thin |
| PrismTowers.GothicCount | NYC.jsx:530-580 | the Woolworth body holds 20 plain lines and its pinnacle 4 thin ones, nothing else |
| PrismTowers.NycSpire | NYC.jsx:583-615 | the spire tower: box frame, four thin lines from the roof corners to h + 45, then the front floor lines at spacing 14, strictly inside |
| PrismTowers.FractionInside | Philadelphia.jsx:497 | a fraction t of a height lies in [0, h], strictly inside when 0 < t < 1 |
| PrismTowers.BandInside | Philadelphia.jsx:496-497 | Comcast bands 1 .. 21 lie strictly between ground and roof |
| PrismTowers.AddComcastBand | Philadelphia.jsx:497-503 | exactly the full-footprint outline at (f / 22) h: four level floor lines, strictly inside a building of positive height |
| PrismTowers.ComcastBandsAt | Philadelphia.jsx:495-504 | line k of the bands is side k mod 4 of the footprint at the height of band k / 4 + 1 |
| PrismTowers.AddComcastBands | Philadelphia.jsx:495-504 | exactly the outlines of bands 1 .. 21 bottom first: 84 level floor lines, strictly inside a building of positive height |
| PrismTowers.ComcastTech | Philadelphia.jsx:475-512 | Comcast Technology Center: the box frame, then exactly bands 1 .. 21, then the thin antenna from h to h + 20 on the axis: 97 lines |
| PrismTowers.Aurora | Sydney.jsx:388-425 | Aurora Place: box frame, the fin as a closed triangle from the front roof edge up to h + 25 and back to the roof centre at h + 15, then the front floor lines at spacing 12, strictly inside |
| PrismTowers.LevelInside | HongKong.jsx:510-511 | HSBC levels 0 .. 5 lie between the ground and the roof |
| PrismTowers.AddHsbcRing | HongKong.jsx:513-519 | exactly the full-footprint outline at level height (l / 5) h: four structure lines |
| PrismTowers.AddHsbcColumns | HongKong.jsx:521-528 | exactly the four corner columns from level l at (l / 5) h up to level l + 1 |
| PrismTowers.AddHsbcLevels | HongKong.jsx:509-530 | exactly, for l = 0 .. 5, the outline at level l and, below the top level, the columns up to level l + 1: 44 structure lines, every one joining two footprint corners between the ground and the roof |
| PrismTowers.AddHsbcBraces | HongKong.jsx:532-544 | exactly, for l = 0 .. 4, the two front-face braces from each bottom corner at level l to the opposite top corner at level l + 1: 10 brace lines, each an X half symmetric about x = b.x |
| PrismTowers.Hsbc | HongKong.jsx:503-545 | the HSBC building is exactly the level loop followed by the bracing loop: 44 structure lines on the footprint between ground and roof, then 10 front braces |
| PrismTowers.PortholeOnFace | HongKong.jsx:570-572 | every porthole lies strictly between the side edges of the front face |
| PrismTowers.Jardine | HongKong.jsx:548-578 | Jardine House: box frame, then 11 rows of 6 portholes, each a zero-length mark on the front face strictly inside it, entry k being column k mod 6 of row k / 6 + 1 |
| PrismTowers.RowAndColumn | HongKong.jsx:568-574 | entry 6 q + w of the porthole grid is column w of row q |
| PrismTowers.AddPortholeRow | HongKong.jsx:570-574 | one row adds the six portholes of its floor in order |
| PrismTowers.WavyEdges | chicago.jsx:343-351 | a wavy floor has four edges |
| PrismTowers.WavyEdgesShape | chicago.jsx:343-351 | the four edges are level floor lines, each starting where the previous one ends |
| PrismTowers.AddWavyFloor | chicago.jsx:343-351 | the edge loop appends exactly the four edges of floor f at 12 f |
| PrismTowers.WavyFloors | chicago.jsx:340-352 | n floors give 4 n lines |
| PrismTowers.WavyFloorsShape | chicago.jsx:340-352 | line k is a level floor line of floor k / 4 at height 12 (k / 4) |
| PrismTowers.WavyFloorsBelowRoof | chicago.jsx:340-342 | with floor(h / 12) floors every wavy floor is at or above the ground and strictly below the roof |
| PrismTowers.Wavy | chicago.jsx:328-353 | the wavy tower is its four verticals followed by the floor(h / 12) wavy floors: 4 plain lines, all the rest floor lines |
| PrismTowers.WavyFloorBelowRoof | chicago.jsx:340-342 | floor f < floor(h / 12) sits at 12 f, at or above the ground and strictly below the roof |
| Twisted.AddStoreys | Moscow.jsx:307-337 | the nested floor/corner loops append exactly the storeys of floors 0 .. floors - 1 |
| Twisted.AddCorners | Moscow.jsx:314-336 | the corner loop of floor f appends, per corner, its rise and, on a tied floor, its tie |
| Twisted.TiedStep | Moscow.jsx:329 | one more floor adds one tied floor exactly when that floor is tied |
| Twisted.StoreyTallyIs | Moscow.jsx:307-337 | the floor-by-floor tally is four rises per floor and four ties per tied floor |
| Twisted.CornersCount | Moscow.jsx:314-336 | a floor's corner loop pushes one rise per corner and, on a tied floor, one tie per corner, nothing else |
| Twisted.StoreysCount | Moscow.jsx:307-337 | the hint counts of floors 0 .. n - 1 are the floor-by-floor tally |
| Twisted.StoreysSize | Moscow.jsx:307-337 | floors 0 .. n - 1 hold 4 n rises plus 4 ties per tied floor |
| Twisted.CornersSize | Moscow.jsx:314-336 | the corner loop of a tied floor pushes two lines per corner, otherwise one |
| Twisted.CornersShape | Moscow.jsx:314-336 | every line a floor's corner loop pushes is a rise of that floor or a tie on it |
| Twisted.StoreysShape | Moscow.jsx:307-337 | every line of the storeys is one corner's rise by one floor or a tie between neighbouring corners on a tied floor; nothing else is drawn |
| Twisted.TwistStep | Moscow.jsx:308-333 | a rise climbs exactly h / floors while its corner turns by exactly turn PI / floors; a tie is level and joins corners a quarter turn apart |
| Twisted.TwistSpan | Moscow.jsx:308-309 | floor 0 is at the ground and floor `floors` at the roof |
| Twisted.SpiralFollowsCorners | Moscow.jsx:340-353 | each spiral line starts where the previous one ends, and runs from corner e on floor 2 j to the same corner on floor 2 j + 2, exactly where the rises pass |
| Twisted.Spiral | Moscow.jsx:342-352 | the polyline of corner e has m lines, line j being the sample-to-sample line from floor 2 j to 2 j + 2 |
| Twisted.SpiralsAt | Moscow.jsx:340-353 | the four polylines take 22 lines each, line j of corner e at position 22 e + j |
| Twisted.SpiralsHint | Moscow.jsx:351 | every spiral line carries the edge-line hint |
| Twisted.SpiralStep | Moscow.jsx:342-352 | one more sample extends the polyline by exactly one line |
| Twisted.AddSpiral | Moscow.jsx:342-352 | the loop over f = 0, 2, .., 44 carrying the previous sample appends exactly the 22 lines of corner e's polyline |
| Twisted.AddSpirals | Moscow.jsx:340-353 | the edge loop appends the four polylines in order |
| Twisted.EvolutionTower | Moscow.jsx:303-360 | Evolution Tower is its storeys, its spirals and its spire, in that order: 329 lines, 180 twist, 60 floor ties, 88 spiral and 1 thin |
| Twisted.EvolutionCount | Moscow.jsx:303-360 | the Evolution hint tally: 180 twist, 60 floor, 88 edge lines, 1 thin, nothing else |
| Twisted.StRegisTower | chicago.jsx:355-385 | St. Regis is its storeys with ties on every segment: 120 lines, 60 plain and 60 floor |
| Twisted.FedRises | Moscow.jsx:378-386 | the tapered edges of section k, one per corner of the triangle |
| Twisted.FedRings | Moscow.jsx:388-398 | the top edges of section k, corner i to corner i + 1 of the triangle |
| Twisted.AddFedRises | Moscow.jsx:378-386 | the corner pass appends exactly section k's three tapered edges |
| Twisted.AddFedRings | Moscow.jsx:388-398 | the edge loop appends exactly section k's three top edges |
| Twisted.AddFedSections | Moscow.jsx:371-399 | the section loop appends exactly the 22 sections in order |
| Twisted.FedSectionsCount | Moscow.jsx:371-399 | n sections hold 6 n lines: 3 n plain tapered edges and 3 n floor edges |
| Twisted.FedScaleFalls | Moscow.jsx:374-375 | the triangle shrinks from scale 1 at the ground to 0.85 at the roof, strictly with every section |
| Twisted.FedContiguous | Moscow.jsx:371-399 | the sections stack without gaps and each section's top edges close the triangle through the tops of its tapered edges, level at the section top |
| Twisted.FederationTower | Moscow.jsx:363-405 | Federation Tower is its 22 sections then its spire: 133 lines, 66 plain, 66 floor, 1 thin |
| Twisted.FederationCount | Moscow.jsx:363-405 | the Federation hint tally: 66 plain, 66 floor, 1 thin, nothing else |
| Lattice.LatticeWidth | Tokyo.jsx:366-373 | the half-width of a ring at any height fraction in [0, 1] lies between 4 and 50 |
| Lattice.LatticeWidthFalls | Tokyo.jsx:366-373 | the lattice never widens as it rises, narrows strictly below the main deck, is 50 at the base, 7.5 at the main deck and 4 at the special deck, and stays above 29 below the deck |
| Lattice.BracesCrossFaces | Tokyo.jsx:413-449 | the eight braces of a section form an X on each of the four faces: each pair stays in one face, crosses it diagonally and the second brace mirrors the first |
| Lattice.RingSides | Tokyo.jsx:383-389 | a ring has one side per corner, side i joining corner i to corner i + 1 |
| Lattice.MainLegs | Tokyo.jsx:404-411 | leg i joins corner i of one ring to corner i of the next |
| Lattice.Braces | Tokyo.jsx:413-449 | brace k of a section joins the corner pair BraceSigns(k) names, from this ring to the next |
| Lattice.LatticeContiguous | Tokyo.jsx:376-411 | legs start at a ring corner and end at the corresponding corner of the ring above, ring sides close into a loop, and every ring is level at its own height |
| Lattice.AddRing | Tokyo.jsx:383-389 | the ring loop appends exactly the four ring sides |
| Lattice.AddLegs | Tokyo.jsx:404-411 | the leg loop appends exactly the four legs |
| Lattice.AddBraces | Tokyo.jsx:414-449 | the face loop and the side pushes append exactly the eight braces, in source order |
| Lattice.AddSection | Tokyo.jsx:361-451 | one pass of the section loop appends the ring, below the top the legs, and below the main deck the braces |
| Lattice.AddLattice | Tokyo.jsx:361-452 | the section loop appends sections 0 to 50 in order |
| Lattice.BracedBelow | Tokyo.jsx:414 | a section is braced exactly when its index is below 30 |
| Lattice.LatticeSectionCount | Tokyo.jsx:361-451 | one section holds 4 ring sides, 4 legs unless it is the top, and 8 braces when below section 30, and nothing else |
| Lattice.LatticeSectionsCount | Tokyo.jsx:361-452 | the first n sections hold 4n ring sides, 4 legs for each of the first 50 and 8 braces for each of the first 30 |
| Lattice.LatticeSectionsSize | Tokyo.jsx:361-452 | the first n sections hold 4n + 4 min(n, 50) + 8 min(n, 30) lines |
| Lattice.DeckRingsWiden | Tokyo.jsx:457-459 | on every building the main deck rings rise five apart, and they widen strictly from 15 to 18 |
| Lattice.SupportsJoinRings | Tokyo.jsx:469-475 | every deck support starts on the lowest deck ring's circle and ends on the highest one's |
| Lattice.DeckSupports | Tokyo.jsx:469-475 | support i is the i-th of eight evenly spaced supports |
| Lattice.MainDeckRings | Tokyo.jsx:457-467 | n main deck rings are 12n deck lines |
| Lattice.SpecialDeckRings | Tokyo.jsx:480-489 | n special deck rings are 10n deck lines |
| Lattice.SpecialDeckFitsLattice | Tokyo.jsx:477-481 | the special deck has the lattice's own half-width between 0.6 and 0.85, and sits above the main deck on a tower taller than 20 |
| Lattice.AddSupports | Tokyo.jsx:469-475 | the support loop appends exactly the eight supports |
| Lattice.AddMainDeckRing | Tokyo.jsx:460-466 | one pass of the main deck ring loop appends one 12-sided ring |
| Lattice.AddSpecialDeckRing | Tokyo.jsx:482-488 | one pass of the special deck ring loop appends one 10-sided ring |
| Lattice.AddDecks | Tokyo.jsx:454-489 | the deck loops append three main rings, eight supports and two special rings in order |
| Lattice.TokyoAntenna | Tokyo.jsx:491-505 | the antenna is five antenna lines: two mast pieces and three crossbars |
| Lattice.CrossbarsOnMast | Tokyo.jsx:498-505 | each crossbar is level, centred on the mast, between the roof and the mast top, and shorter than the one below |
| Lattice.AddAntenna | Tokyo.jsx:491-505 | the antenna code appends exactly the mast and the crossbars |
| Lattice.TokyoTower | Tokyo.jsx:357-506 | Tokyo Tower is the lattice, the decks and the antenna: 713 lines, of them 204 ring sides, 200 legs, 240 braces, 64 deck lines and 5 antenna lines |
| Lattice.DecksCount | Tokyo.jsx:454-489 | the decks are 64 lines, all deck lines |
| Lattice.TokyoTowerCount | Tokyo.jsx:357-506 | the tower's lines tally 204 ring, 200 main, 240 brace, 64 deck and 5 antenna lines and nothing else |
| Tapered.BocScaleFalls | HongKong.jsx:351-352 | the Bank of China footprint scale is 1 at the ground and 0.75 at the roof and falls strictly from section to section |
| Tapered.BocDiagonals | HongKong.jsx:377-393 | a section's front X is four diagonal lines |
| Tapered.BocDiagonalsMeet | HongKong.jsx:379-392 | the four diagonals meet at one point halfway up the front face's centre line, and the left pair mirrors the right pair in the tower's axis |
| Tapered.BocContiguous | HongKong.jsx:354-375 | each corner edge starts where the edge below ends, on the ring that closes the section below |
| Tapered.AddBocSection | HongKong.jsx:349-393 | one pass of the section loop appends the corner edges, the ring and, below the last section, the front X |
| Tapered.BocSectionCount | HongKong.jsx:354-393 | a section is 8 plain lines plus 4 diagonals unless it is the last one |
| Tapered.BocSectionsCount | HongKong.jsx:348-394 | n sections hold 8n plain lines and 4 diagonals for each of the first four |
| Tapered.BankOfChina | HongKong.jsx:339-403 | the Bank of China is five sections and two masts: 58 lines, 40 plain, 16 diagonal and 2 thin |
| Tapered.BocCount | HongKong.jsx:339-403 | the Bank of China's lines tally 40 plain, 16 diagonal and 2 thin lines and nothing else |
| Tapered.IfcBands | HongKong.jsx:427-440 | n floor bands are 4n floor lines |
| Tapered.IfcBandsOnShaft | HongKong.jsx:415-456 | every floor band corner lies f / 20 of the way up the matching shaft edge, and each crown edge starts where a shaft edge ends and reaches the roof |
| Tapered.BandOnEdge | HongKong.jsx:427-440 | corner i of band f is the point f / 20 of the way along corner edge i of the shaft |
| Tapered.IfcBandsBelowCrown | HongKong.jsx:427-443 | on a tower of positive height every band lies from the ground up to strictly below the crown base |
| Tapered.AddIfcBands | HongKong.jsx:427-440 | the band loop appends exactly the twenty floor bands |
| Tapered.TwoIfc | HongKong.jsx:405-462 | Two IFC is the shaft, 20 bands, the crown and the antenna: 89 lines, 8 plain, 80 floor and 1 thin |
| Tapered.IfcCount | HongKong.jsx:405-462 | Two IFC's lines tally 8 plain, 80 floor and 1 thin line and nothing else |
| Tapered.OwtcShape | NYC.jsx:323-354 | the octagon scale falls strictly from 1 to 0.65, the octagon tops out at h - 50 where the spire starts, every edge starts where the one below ends, and floor edges are level |
| Tapered.AddOwtcSegment | NYC.jsx:329-348 | the vertex loop appends each vertex's edge and, on every fifth segment, its floor edge |
| Tapered.OwtcSidesSize | NYC.jsx:329-348 | m vertices of a segment give m lines, doubled on a floored segment |
| Tapered.OwtcSidesCount | NYC.jsx:329-348 | m vertices of a segment give m plain lines, plus m floor lines on a floored segment |
| Tapered.OwtcSegmentsCount | NYC.jsx:323-349 | n segments hold 8n plain lines and 8 floor lines for each multiple of 5 below n |
| Tapered.FifthsStep | NYC.jsx:345 | one more segment adds a floor octagon exactly when its index is a multiple of 5 |
| Tapered.OneWorldTradeCenter | NYC.jsx:318-355 | One World Trade Center is 25 octagonal segments and the spire: 241 lines, 200 plain, 40 floor and 1 thin |
| Tapered.OwtcCount | NYC.jsx:318-355 | One World Trade Center's lines tally 200 plain, 40 floor and 1 thin line and nothing else |
| Tapered.HancockLevel | chicago.jsx:473-480 | m faces of a bracing level are 2m brace lines |
| Tapered.HancockLevels | chicago.jsx:467-481 | n bracing levels are 8n brace lines |
| Tapered.BracesOnEdges | chicago.jsx:466-481 | every brace end lies on a tapered corner edge, i / 5 of the way up at the bottom of level i and (i + 1) / 5 at its top, crossing the face from one edge to the other |
| Tapered.LevelOnEdge | chicago.jsx:468-471 | corner k of bracing level i is the point i / 5 of the way up corner edge k |
| Tapered.AddHancockLevel | chicago.jsx:473-480 | the face loop of one level appends exactly its four X braces |
| Tapered.TaperedTower | chicago.jsx:440-489 | the tapered tower is four corner edges, the base and roof rims, the braces when braced and the antenna when it has one: 12 plain lines, 40 braces when braced, 1 thin line with an antenna |
| Tapered.TaperedCount | chicago.jsx:440-489 | the tapered tower's lines tally exactly those plain, brace and thin lines and nothing else |
| Tapered.OkoBands | Moscow.jsx:488-495 | band f is the front-face line at the f-th band's height and scale |
| Tapered.OkoBandsOnFace | Moscow.jsx:462-500 | each band spans the front face of the tapered shaft, its ends f / 20 of the way up corner edges 0 and 1, level, and on a tower of positive height below the roof where the crown starts |
| Tapered.AddOkoBands | Moscow.jsx:488-495 | the band loop appends exactly the twenty bands |
| Tapered.OkoTower | Moscow.jsx:456-501 | OKO Towers is four corner edges tapering to 0.9, the base and roof edges, 20 bands and the crown: 33 lines, 12 plain, 20 floor and 1 thin |
| Tapered.OkoCount | Moscow.jsx:456-501 | OKO Towers' lines tally 12 plain, 20 floor and 1 thin line and nothing else |
| Tapered.BulgeShape | Philadelphia.jsx:516-545 | Comcast Center's corner edges join end to end from the ground to the roof, its floor edges are level, and where the sine lies in [0, 1] the bowed radius lies between w / 2 and w / 2 + 4 |
| Tapered.AddBulgeSegment | Philadelphia.jsx:523-544 | the corner loop appends each corner's edge and, on every third segment, its floor edge |
| Tapered.BulgeSidesCount | Philadelphia.jsx:523-544 | m corners of a segment give m plain lines, plus m floor lines on every third segment |
| Tapered.ThirdsStep | Philadelphia.jsx:541 | one more segment adds a floor square exactly when its index is a multiple of 3 |
| Tapered.BulgeSegmentsCount | Philadelphia.jsx:517-545 | n segments hold 4n plain lines and 4 floor lines for each multiple of 3 below n |
| Tapered.ComcastCenter | Philadelphia.jsx:515-546 | Comcast Center is 18 bowed segments: 96 lines, 72 plain and 24 floor |
| Crowned.PlazaShaft | HongKong.jsx:472-477 | the shaft is the three corner edges of the triangular plan, from the ground to 0.85 h |
| Crowned.PlazaFloor | HongKong.jsx:482-487 | a floor triangle is three floor lines, side i joining corner i to corner i + 1 at the floor's height |
| Crowned.PlazaFloors | HongKong.jsx:480-488 | n floor triangles are 3n floor lines |
| Crowned.PlazaCrown | HongKong.jsx:490-496 | the neon pyramid is three lines from each corner at the crown base to the roof centre |
| Crowned.PlazaShape | HongKong.jsx:466-500 | each floor triangle closes, on a tower of positive height floors 0 to 17 lie below the crown base, the pyramid stands on top of the shaft and its edges meet at the foot of the antenna |
| Crowned.AddPlazaFloors | HongKong.jsx:480-488 | the floor loop appends exactly the eighteen floor triangles |
| Crowned.CentralPlaza | HongKong.jsx:464-501 | Central Plaza is the shaft, 18 floors, the pyramid and the antenna: 61 lines, 3 plain, 54 floor, 3 neon crown and 1 thin |
| Crowned.PlazaCount | HongKong.jsx:464-501 | Central Plaza's lines tally 3 plain, 54 floor, 3 neon crown and 1 thin line and nothing else |
| Crowned.CityHallRises | Philadelphia.jsx:549-605 | on a building of positive height the base, tower, dome and statue follow one another upward: 0.45 h, 0.85 h, 0.95 h, h + 18 |
| Crowned.DomeRibs | Philadelphia.jsx:594-601 | the dome is eight ribs, rib i at angle i / 8 of a turn |
| Crowned.CityHallStacks | Philadelphia.jsx:555-606 | the tower starts on the base's roof, the dome ribs start at the tower's top ring and end where the statue stands, and on a building of positive width the ribs lean inward |
| Crowned.CityHall | Philadelphia.jsx:548-607 | City Hall is the base, the tower, the dome and William Penn: 29 lines, 28 plain and 1 statue |
| Crowned.CityHallCount | Philadelphia.jsx:548-607 | City Hall's lines tally 28 plain and 1 statue line and nothing else |
| Crowned.CityHallBaseCount | Philadelphia.jsx:555-570 | the base is 12 plain lines |
| Crowned.CityHallTowerCount | Philadelphia.jsx:572-606 | the tower, dome and statue are 16 plain lines and 1 statue line |
| Crowned.TurretBulges | Sydney.jsx:313-315 | the turret rings bulge symmetrically: ring r and ring 5 - r have the same radius, 9 at the ends and 16.2 in the middle, growing towards the middle |
| Crowned.TurretRings | Sydney.jsx:312-323 | n turret rings are 12n deck lines |
| Crowned.TowerShaft | Sydney.jsx:296-305 | the shaft is four posts at radius 4 from the ground to 0.7 h |
| Crowned.TurretRibs | Sydney.jsx:325-333 | the turret ribs are eight uprights at radius 16.2 spanning the turret's height |
| Crowned.RibsSpanTurret | Sydney.jsx:307-338 | the ribs run from the lowest ring's height to the highest ring's at the widest rings' radius, and the spire starts on top of the turret |
| Crowned.AddTurretRings | Sydney.jsx:312-323 | the ring loop appends exactly the six turret rings |
| Crowned.AddTurretRing | Sydney.jsx:316-322 | one pass of the ring loop appends one 12-sided ring |
| Crowned.SydneyTower | Sydney.jsx:295-343 | Sydney Tower is the shaft, six turret rings, eight ribs, the spire and the antenna: 86 lines, 4 shaft, 80 deck, 1 spire and 1 thin |
| Crowned.SydneyCount | Sydney.jsx:295-343 | Sydney Tower's lines tally 4 shaft, 80 deck, 1 spire and 1 thin line and nothing else |
| Crowned.CrownNarrows | Sydney.jsx:369-385 | the Chifley crown narrows strictly from the full footprint to 0.6 of it, and wherever the sine lies in [0, 1] its rings lie between the crown base and the roof |
| Crowned.ChifleyFloors | Sydney.jsx:358-367 | n floor rings are 4n floor lines |
| Crowned.ChifleyCrown | Sydney.jsx:369-385 | n crown rings are 4n crown lines |
| Crowned.Chifley | Sydney.jsx:345-386 | Chifley Tower is the shaft, 18 floor rings and 8 crown rings: 108 lines, 4 plain, 72 floor and 32 crown |
| Crowned.ChifleyCount | Sydney.jsx:345-386 | Chifley Tower's lines tally 4 plain, 72 floor and 32 crown lines and nothing else |
| Crowned.Podium | chicago.jsx:272-288 | n podium bays are 3n plain lines |
| Crowned.Petals | chicago.jsx:294-313 | m petals of a floor are 2m balcony lines |
| Crowned.BalconyFloors | chicago.jsx:290-314 | n balcony floors are 32n balcony lines |
| Crowned.MarinaRoof | chicago.jsx:316-326 | the roof is twelve edges joining consecutive vertices of the footprint 12-gon at h |
| Crowned.BalconiesAbovePodium | chicago.jsx:290-291 | on a tower taller than the podium the balcony floors climb strictly from the podium top and stay below the roof |
| Crowned.PetalsJoin | chicago.jsx:294-313 | each petal's outer edge ends on the next petal's tip, so every floor's outline closes up petal by petal |
| Crowned.AddPetals | chicago.jsx:294-313 | the petal loop appends exactly the sixteen petals of one floor |
| Crowned.MarinaCity | chicago.jsx:268-327 | Marina City is the podium, 20 balcony floors and the roof: 688 lines, 48 plain and 640 balcony |
| Crowned.MarinaCount | chicago.jsx:268-327 | Marina City's lines tally 48 plain and 640 balcony lines and nothing else |
| Bridges.CableXAt | NYC.jsx:780-782 | the 21 cable samples lie 6 apart from the bridge's start |
| Bridges.MainSpan | NYC.jsx:789-793 | between the towers the cable hangs from the tower tops (70) to 50 at mid-span, never leaves [50, 70] and is symmetric about mid-span |
| Bridges.Approaches | NYC.jsx:785-788 | the approach cables rise from just above the deck to 38.8 at the bridge ends, reaching 38.8 only there, so the cable jumps to the tower top at each tower |
| Bridges.SuspendedExactly | NYC.jsx:805 | suspenders hang from samples 6, 8, 10, 12 and 14 and no others |
| Bridges.CablePieces | NYC.jsx:795-811 | every cable piece joins two consecutive samples and every suspender drops straight from its sample to the deck |
| Bridges.CableLinesCount | NYC.jsx:780-812 | n samples give n - 1 cable pieces and one suspender per suspended sample below n |
| Bridges.SuspendersStep | NYC.jsx:805 | one more sample adds a suspender exactly when it is an even sample from 6 to 14 |
| Bridges.CableStepCount | NYC.jsx:795-811 | a sample adds a cable piece when it has a predecessor and a suspender when it is suspended |
| Bridges.AddCable | NYC.jsx:778-813 | the cable loop with its `lastP` accumulator appends exactly the cable pieces and suspenders of 21 samples |
| Bridges.BrooklynDeck | NYC.jsx:724-732 | the deck is two deck lines |
| Bridges.CrossBeams | NYC.jsx:734-741 | beam k is the k-th cross beam, 12 apart from the start |
| Bridges.AddBeams | NYC.jsx:734-741 | the beam loop appends eleven beams, the last one at the bridge's end |
| Bridges.TowersCarryCable | NYC.jsx:743-775 | each tower's posts stand at the corners of a 12 by 12 square from the ground to the tower top, the pointed arch sits inside the tower, and the cable touches both tower tops |
| Bridges.BrooklynBridge | NYC.jsx:718-816 | the Brooklyn Bridge is 77 lines: 2 deck, 11 beams, 10 tower posts and bars, 4 arch lines, 40 cable pieces and 10 suspenders |
| Bridges.BrooklynCount | NYC.jsx:718-816 | the Brooklyn Bridge's lines tally exactly those hints and nothing else |
| Bridges.FixedCount | NYC.jsx:724-775 | the deck, beams and towers are 27 lines: 2 deck, 11 beam, 10 pylon and 4 structure |
| Bridges.TowerCount | NYC.jsx:744-775 | one tower is 7 lines: 5 pylon and 2 structure |
| Bridges.ArchShape | Sydney.jsx:599-603 | the Harbour Bridge arch springs from 0 at both ends, peaks at 160 at mid-span, stays within [0, 160] over the span and is symmetric about mid-span |
| Bridges.ChordsParallel | Sydney.jsx:605-623 | the top chord runs 18 above the bottom chord and each chord piece joins consecutive samples |
| Bridges.ArchLinesCount | Sydney.jsx:598-647 | the arch's lines tally the chords, verticals and brace pairs of its samples |
| Bridges.ArchStepCount | Sydney.jsx:610-643 | a sample with a predecessor adds two chord pieces, a vertical when even and a brace pair when an inner multiple of three |
| Bridges.ArchTallyStep | Sydney.jsx:610-643 | the chord, vertical and brace tallies grow by exactly what each sample adds |
| Bridges.AddArch | Sydney.jsx:594-647 | the arch loop over i = 0 .. numArchPoints, which must be the scene's constant 50, with its previous-sample accumulators appends exactly the arch's lines, ArchLines(51) |
| Bridges.AddArchStep | Sydney.jsx:610-643 | one sample with a predecessor appends its chords, vertical and braces |
| Bridges.HarbourDeck | Sydney.jsx:649-661 | the road deck is two deck lines |
| Bridges.ArchAtSample | Sydney.jsx:665-667 | at sample i the arch is 160 - 160 (i - 25)^2 / 625 high |
| Bridges.HangsExactly | Sydney.jsx:664-669 | the arch clears the deck by more than 15 exactly at samples 7 to 43 |
| Bridges.HarbourSuspenders | Sydney.jsx:663-678 | every suspender drawn is a suspender line |
| Bridges.HarbourSuspendersCount | Sydney.jsx:663-678 | the suspenders drawn among the first n candidates are those that hang |
| Bridges.SuspenderSpans | Sydney.jsx:669-676 | each suspender hangs straight down from the arch to the road deck, from more than 15 above it |
| Bridges.AddSuspenders | Sydney.jsx:664-678 | the suspender loop over i = 3, 5, .., 47 appends exactly the hanging suspenders |
| Bridges.PylonBands | Sydney.jsx:708-726 | n pylon bands are 4n pylon lines |
| Bridges.BandsMissPosts | Sydney.jsx:694-726 | the bands rise by thirds of the height but shrink by quarters of the taper, so the top band sits at the posts' top height at scale 0.775 and misses the posts' tops at 0.7 |
| Bridges.AddPylon | Sydney.jsx:686-727 | one pass of the pylon loop appends the four posts and four bands |
| Bridges.HarbourBridge | Sydney.jsx:586-740 | the Harbour Bridge is 218 lines: 100 chord pieces, 25 verticals, 32 braces, 2 deck, 19 suspenders and 40 pylon lines |
| Bridges.HarbourCounts | Sydney.jsx:586-740 | the Harbour Bridge's tally of each hint it uses |
| Bridges.HarbourCount | Sydney.jsx:586-740 | the Harbour Bridge's lines tally exactly those hints and nothing else |
| Bridges.ArchCount | Sydney.jsx:594-647 | the 51 arch samples give 157 lines: 100 chord, 25 truss and 32 diagonal |
| Bridges.HangersCount | Sydney.jsx:663-678 | 19 suspenders hang |
| Bridges.PylonCount | Sydney.jsx:686-727 | one pylon is 20 pylon lines |
| Shells.RoofHump | HongKong.jsx:585-587 | the convention centre's roof is full height in the middle, a quarter of the height at both ends, within [h / 4, h] across the width on a building of non-negative height, and symmetric |
| Shells.RoofLines | HongKong.jsx:584-603 | n roof samples are 3n - 1 plain lines: two per rib and one ridge piece per sample after the first |
| Shells.RoofShape | HongKong.jsx:589-602 | every rib runs from the front ground edge over its crest to the back ground edge, each ridge piece joins the previous crest to this one, and mirror-image crests are equally high |
| Shells.Hkcec | HongKong.jsx:581-604 | the convention centre is 12 ribs and 11 ridge pieces: 35 plain lines |
| Shells.Silhouette | HongKong.jsx:676-686 | the outline is one mountain line per pair of consecutive peak points, each raised by 100 |
| Shells.Kept | HongKong.jsx:690-691 | filtering never adds peaks |
| Shells.KeptMembers | HongKong.jsx:690-691 | the filter keeps exactly the peaks higher than level - 20 |
| Shells.Lowered | HongKong.jsx:692 | every kept peak is capped at the level and raised by 100, its x unchanged |
| Shells.KeptIncreasing | HongKong.jsx:690-691 | filtering a left-to-right silhouette keeps it left to right |
| Shells.ContourBand | HongKong.jsx:689-692 | every contour point of a level lies in (level + 80, level + 100], and a left-to-right silhouette gives left-to-right contours |
| Shells.ContourLines | HongKong.jsx:694-703 | a contour is one contour line per pair of consecutive contour points |
| Shells.Contours | HongKong.jsx:689-704 | every contour line carries the contour hint |
| Shells.ContoursSize | HongKong.jsx:689-704 | the contours of the first levels hold one line fewer than the points each level keeps, none for a level that keeps none |
| Shells.Mountains | HongKong.jsx:666-707 | the mountains are the silhouette followed by the contours of levels 20, 45, 70 and 95, tallied as mountain and contour lines |
| Shells.AddSilhouette | HongKong.jsx:677-686 | the outline loop appends exactly the silhouette |
| Shells.AddContours | HongKong.jsx:689-704 | the level loop from 20 while below 120 in steps of 25 appends the four levels' contours in order |
| Shells.AddContour | HongKong.jsx:694-703 | the inner loop appends exactly one level's contour |
| Shells.MountainCount | HongKong.jsx:666-707 | the mountains' lines tally the silhouette as mountain lines and the contours as contour lines, nothing else |
| Shells.PeakPointsIncreasing | HongKong.jsx:670-674 | Victoria Peak's 13 silhouette points run left to right, giving 12 outline lines |
| Shells.StepsIncrease | HongKong.jsx:670-674 | x rising between neighbours rises between any two points |

## Left out

- Output. The JSX/SVG markup is not modelled: strokes, widths, opacities, glow filters, keys and label text. The model stops at world-space segments with their hints; `Projection.Project` maps single points.
- Trigonometry. `Math.cos`, `Math.sin` and `Math.PI` are parameters. Facts that need their values are therefore not stated. For example, an n-gon's last side ending exactly on its first vertex needs the periodicity of cos and sin.
- Floating point. The model uses exact reals where the scenes use IEEE doubles. Boundary comparisons such as `t < 0.6` are exact here, and rounding is not modelled.
- Randomness. `Math.random` seeds stars, windows, rain, snow and flicker; it also sizes and places the clouds (Tokyo.jsx:47-52), fires the storm's lightning on a tenth of the ticks (Tokyo.jsx:60, chicago.jsx:61) and shapes the bolt (Tokyo.jsx:1115-1121, chicago.jsx:658-666, 687-689). Particle start positions and speeds are parameters of the particle formulas; clouds, lightning and the bolt are not modelled.
- Timers and scheduling. The 33 ms interval, animation frames and the `setTimeout` that clears the lightning flash are left out. `Camera.SceneController.Tick` is one tick, called by its environment.
- Snow sway. The snow wobble `Math.sin(time * 2 + wobble)` is the `sine` parameter of `Particles.SnowX`.
- Sine-shaped generators. The Chifley crown heights, Marina City's petal depth, the wavy tower's corners and the Comcast Center bulge take their sine values from `Trig`. Their bounds are stated only where the sine lies in [0, 1]. The wavy tower's last floor edge ends on corner 0 pushed by `sin(0.4 f + 4)`, not by `sin(0.4 f)`, exactly as the scene computes it, so a wavy floor need not close.
- Other renderers. These are not part of this model:
  - Tokyo's other landmarks (Skytree, Metropolitan Government Building, Cocoon Tower, Docomo Tower) and its Mount Fuji profile;
  - clouds, water, ripples, reflections, boats' hulls, trains, stars, moon phases;
  - the info panel, the hover state and the React components around the canvas.
- Static data. The building catalogues, hex colour tables, info payloads and label strings are not modelled. Generators take a `Geometry.Building` descriptor instead.
- Camera.SceneController.SetView: it re-establishes the clamp invariant only when the preset is inside the clamped ranges. The scenes' preset tables are static data, not modelled here.
- Projection.Project: it requires `depth + 600` to be non-zero. The scene divides without a check, and a point at the viewer's plane gives an infinite or NaN screen position, which is not modelled.

## Findings

| source | as written | input that shows it | evidently intended | confidence | as-written member | corrected member |
|---|---|---|---|---|---|---|
| Philadelphia.jsx:1097 | the time-of-day label switches to sunset at `timeOfDay < 0.75` after `< 0.6`, and every scene writes the same thresholds; the palette (Philadelphia.jsx:137-138) turns sunset only above 0.6 and night only above 0.75 | t = 0.6 labels SUNSET over the day palette; t = 0.75 labels NIGHT over the sunset palette | the label names the phase the palette shows | not executed; the disagreement is confined to two boundary values | Palette.LabelAsWritten, Palette.LabelAsWrittenDisagrees | Palette.Label |
