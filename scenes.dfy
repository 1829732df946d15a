/** The seven city scenes share one engine and differ only in a handful of
    constants, collected here. */
module Scenes {

  datatype City = Tokyo | Moscow | NewYork | HongKong | Sydney | Philadelphia | Chicago

  /** The `windowSpacing` constant of each scene's `renderBuilding`. The
      per-scene value is the table in the body; the ensures states only the
      range shared by all scenes. */
  function WindowSpacing(c: City): (ws: real)
    ensures ws == 12.0 || ws == 14.0 || ws == 18.0
  {
    match c
    case NewYork => 14.0
    case Philadelphia => 14.0
    case Chicago => 18.0
    case _ => 12.0
  }

  /** The yaw added by each 33 ms tick while autorotating. The per-scene
      value is the table in the body; the ensures states only the range
      shared by all scenes. */
  function AutoRotateStep(c: City): (step: real)
    ensures 0.0012 <= step <= 0.002
  {
    match c
    case Tokyo => 0.0012
    case Moscow => 0.0016
    case NewYork => 0.0018
    case HongKong => 0.0015
    case Sydney => 0.0015
    case Philadelphia => 0.0018
    case Chicago => 0.002
  }

  /** The screen y of the projection centre: 320 in chicago, 330 elsewhere.
      The chicago value is the body's; the ensures states only that every
      other scene uses 330. */
  function CentreY(c: City): (y: real)
    ensures y == 330.0 <==> c != Chicago
  {
    if c == Chicago then 320.0 else 330.0
  }

  /** Labels whose projected depth is below minus this value are culled. The
      per-scene value is the table in the body; the ensures states only the
      range shared by all scenes. */
  function LabelCull(c: City): (d: real)
    ensures 200.0 <= d <= 350.0
  {
    match c
    case Tokyo => 200.0
    case Moscow => 250.0
    case NewYork => 320.0
    case HongKong => 250.0
    case Sydney => 250.0
    case Philadelphia => 280.0
    case Chicago => 350.0
  }
}
