/** The scale resolver (`getScale`): the fit mode turns the displayed canvas
    aspect and the backing-store aspect into a clip-space (scaleX, scaleY). */
module Scale {

  datatype ScaleXY = ScaleXY(x: real, y: real)

  const Identity := ScaleXY(1.0, 1.0)

  /** The mode names the switch recognises. */
  const AspectFillModes: set<string> := {"AspectFill", "vertical"}
  const AspectFitModes: set<string> := {"AspectFit", "horizontal"}
  const ContainModes: set<string> := {"contain"}
  const CoverModes: set<string> := {"Fill", "cover"}
  const KnownModes: set<string> := AspectFillModes + AspectFitModes + ContainModes + CoverModes

  /** `this.video && this.op.mode`: a video is attached and a mode is set (the
      empty string stands for an unset mode; both are falsy). */
  predicate Active(hasVideo: bool, mode: string)
  {
    hasVideo && mode != ""
  }

  /** The sizes the active branch divides by are all positive. */
  predicate PositiveSizes(clientWidth: real, clientHeight: real, width: real, height: real)
  {
    clientWidth > 0.0 && clientHeight > 0.0 && width > 0.0 && height > 0.0
  }

  /** videoAspect / canvasAspect, the unclamped horizontal scale. */
  function Ratio(clientWidth: real, clientHeight: real, width: real, height: real): (r: real)
    requires PositiveSizes(clientWidth, clientHeight, width, height)
    ensures r > 0.0
  {
    var canvasAspect := clientWidth / clientHeight;
    var videoAspect := width / height;
    videoAspect / canvasAspect
  }

  /** The scale fits the unit box, keeps the ratio x / y == r, and touches a side. */
  predicate FitsWithRatio(s: ScaleXY, r: real)
  {
    s.x == r * s.y && s.x <= 1.0 && s.y <= 1.0 && (s.x == 1.0 || s.y == 1.0)
  }

  /** The scale covers the unit box, keeps the ratio x / y == r, and touches a side. */
  predicate CoversWithRatio(s: ScaleXY, r: real)
  {
    s.x == r * s.y && s.x >= 1.0 && s.y >= 1.0 && (s.x == 1.0 || s.y == 1.0)
  }

  /** `contain`: start from (r, 1); when r > 1, shrink to (1, 1/r). */
  function ContainScale(r: real): (s: ScaleXY)
    requires r > 0.0
    ensures FitsWithRatio(s, r)
  {
    if r > 1.0 then ScaleXY(1.0, 1.0 / r) else ScaleXY(r, 1.0)
  }

  /** `cover` / `Fill`: start from (r, 1); when r < 1, grow to (1, 1/r). */
  function CoverScale(r: real): (s: ScaleXY)
    requires r > 0.0
    ensures CoversWithRatio(s, r)
  {
    if r < 1.0 then ScaleXY(1.0, 1.0 / r) else ScaleXY(r, 1.0)
  }

  /** getScale. The switch has no default branch, so an unknown mode, like a
      missing video or mode, leaves the scale at (1, 1). */
  function GetScale(hasVideo: bool, mode: string, clientWidth: real, clientHeight: real, width: real, height: real): (s: ScaleXY)
    requires Active(hasVideo, mode) ==> PositiveSizes(clientWidth, clientHeight, width, height)
    ensures s.x > 0.0 && s.y > 0.0
    ensures !Active(hasVideo, mode) || mode !in KnownModes ==> s == Identity
    ensures Active(hasVideo, mode) && mode in AspectFillModes ==>
      s.y == 1.0 && s.x == (width / height) / (clientWidth / clientHeight)
    ensures Active(hasVideo, mode) && mode in AspectFitModes ==>
      s.x == 1.0 && s.y == (clientWidth / clientHeight) / (width / height)
    ensures Active(hasVideo, mode) && mode in ContainModes ==>
      FitsWithRatio(s, Ratio(clientWidth, clientHeight, width, height))
    ensures Active(hasVideo, mode) && mode in CoverModes ==>
      CoversWithRatio(s, Ratio(clientWidth, clientHeight, width, height))
  {
    if Active(hasVideo, mode) then
      var canvasAspect := clientWidth / clientHeight;
      var videoAspect := width / height;
      if mode in AspectFillModes then ScaleXY(videoAspect / canvasAspect, 1.0)
      else if mode in AspectFitModes then ScaleXY(1.0, canvasAspect / videoAspect)
      else if mode in ContainModes then ContainScale(videoAspect / canvasAspect)
      else if mode in CoverModes then CoverScale(videoAspect / canvasAspect)
      else Identity
    else
      Identity
  }

  /** The two characterisations single out the clamped results: for every
      positive ratio, a scale fits with that ratio exactly when it is the
      `contain` result, and covers with it exactly when it is the `cover` one. */
  lemma ClampCharacterised(r: real, s: ScaleXY)
    requires r > 0.0
    ensures FitsWithRatio(s, r) <==> s == ContainScale(r)
    ensures CoversWithRatio(s, r) <==> s == CoverScale(r)
  {
  }

  /** `contain` and `cover` clamp only on their own side of r = 1: below it
      `contain` leaves (r, 1) and `cover` yields (1, 1/r); above it the reverse. */
  lemma ClampSides(r: real)
    requires r > 0.0
    ensures r <= 1.0 ==> ContainScale(r) == ScaleXY(r, 1.0)
    ensures r < 1.0 ==> CoverScale(r) == ScaleXY(1.0, 1.0 / r)
    ensures r > 1.0 ==> ContainScale(r) == ScaleXY(1.0, 1.0 / r)
    ensures r >= 1.0 ==> CoverScale(r) == ScaleXY(r, 1.0)
  {
  }

  /** When the laid-out canvas has the aspect of its backing store (as an
      unstyled canvas does), every mode leaves the scale at (1, 1). */
  lemma SameAspectIdentity(hasVideo: bool, mode: string, clientWidth: real, clientHeight: real, width: real, height: real)
    requires PositiveSizes(clientWidth, clientHeight, width, height)
    requires clientWidth / clientHeight == width / height
    ensures GetScale(hasVideo, mode, clientWidth, clientHeight, width, height) == Identity
  {
    var a := width / height;
    assert a > 0.0;
    assert a / a == 1.0;
    assert Ratio(clientWidth, clientHeight, width, height) == 1.0;
  }

  /** Worked example, source aspect 0.5 on a square canvas: `contain` keeps (0.5, 1). */
  lemma ContainExample()
    ensures GetScale(true, "contain", 100.0, 100.0, 50.0, 100.0) == ScaleXY(0.5, 1.0)
  {
  }

  /** Worked example, source aspect 0.5 on a square canvas: `cover` grows to (1, 2). */
  lemma CoverExample()
    ensures GetScale(true, "cover", 100.0, 100.0, 50.0, 100.0) == ScaleXY(1.0, 2.0)
  {
  }
}
