/** Where the RGB region and the alpha region sit in the source frame
    (`getRgbaPos`). */
module RgbaPos {
  import opened Wrappers
  import opened Coord

  /** The clip's frame descriptor: reference size and the two sub-rectangles. */
  datatype Descriptor = Descriptor(width: real, height: real, rgbFrame: Rect, alphaFrame: Rect)

  /** The decoded video's intrinsic size; 0 while metadata is not loaded. */
  datatype Video = Video(videoWidth: nat, videoHeight: nat)

  /** The resolved layout: RGB rectangle, alpha rectangle, reference size. */
  datatype Layout = Layout(rgb: Rect, alpha: Rect, vW: real, vH: real)

  /** Sizes used when the video reports zero dimensions. */
  const FallbackWidth: nat := 1800
  const FallbackHeight: nat := 1000

  /** The reference size is usable as a divisor. */
  predicate NonZeroSize(d: Descriptor)
  {
    d.width != 0.0 && d.height != 0.0
  }

  /** JavaScript's `n ? n : fallback` on a video dimension. */
  function OrFallback(n: nat, fallback: nat): nat
  {
    if n != 0 then n else fallback
  }

  /** The 50/50 split of a vW x vH frame; with alpha on the right the RGB
      half is the left one, otherwise the two are swapped. */
  function SplitLayout(vW: real, vH: real, alphaDirection: string): (l: Layout)
    ensures l.vW == vW && l.vH == vH
    ensures l.rgb.y == 0.0 && l.alpha.y == 0.0 && l.rgb.h == vH && l.alpha.h == vH
    ensures l.rgb.w == vW / 2.0 && l.alpha.w == vW / 2.0
    ensures alphaDirection == "right" ==> l.rgb.x == 0.0 && l.alpha.x == vW / 2.0
    ensures alphaDirection != "right" ==> l.alpha.x == 0.0 && l.rgb.x == vW / 2.0
  {
    var stageW := vW / 2.0;
    var rgb := if alphaDirection == "right" then Rect(0.0, 0.0, stageW, vH) else Rect(stageW, 0.0, stageW, vH);
    var alpha := if alphaDirection == "right" then Rect(stageW, 0.0, stageW, vH) else Rect(0.0, 0.0, stageW, vH);
    Layout(rgb, alpha, vW, vH)
  }

  /** getRgbaPos: the descriptor when there is one (with the alpha y-origin
      recomputed as vH - aH, the compatibility adjustment for forward
      rendering), else the 50/50 split of the video, else `undefined`. */
  function GetRgbaPos(descript: Option<Descriptor>, video: Option<Video>, alphaDirection: string): (r: Option<Layout>)
    ensures r.Some? <==> descript.Some? || video.Some?
    ensures descript.Some? ==>
      var d := descript.value;
      r.value.rgb == d.rgbFrame && r.value.vW == d.width && r.value.vH == d.height &&
      r.value.alpha.x == d.alphaFrame.x && r.value.alpha.w == d.alphaFrame.w &&
      r.value.alpha.h == d.alphaFrame.h &&
      r.value.alpha.y + r.value.alpha.h == r.value.vH
    ensures descript.None? && video.Some? ==>
      var v := video.value;
      r.value.vW == (if v.videoWidth == 0 then FallbackWidth else v.videoWidth) as real &&
      r.value.vH == (if v.videoHeight == 0 then FallbackHeight else v.videoHeight) as real &&
      r.value == SplitLayout(r.value.vW, r.value.vH, alphaDirection)
    ensures descript.None? && video.Some? ==> r.value.vW > 0.0 && r.value.vH > 0.0
  {
    match descript
    case Some(d) =>
      var a := d.alphaFrame;
      Some(Layout(d.rgbFrame, Rect(a.x, d.height - a.h, a.w, a.h), d.width, d.height))
    case None =>
      match video
      case None => None
      case Some(v) =>
        var vW := OrFallback(v.videoWidth, FallbackWidth) as real;
        var vH := OrFallback(v.videoHeight, FallbackHeight) as real;
        Some(SplitLayout(vW, vH, alphaDirection))
  }

  /** The alpha y-origin the descriptor supplies is ignored: two descriptors
      that differ only there resolve to the same layout. */
  lemma AlphaYIgnored(d: Descriptor, y: real, video: Option<Video>, alphaDirection: string)
    ensures
      var a := d.alphaFrame;
      var d' := d.(alphaFrame := Rect(a.x, y, a.w, a.h));
      GetRgbaPos(Some(d'), video, alphaDirection) == GetRgbaPos(Some(d), None, "")
  {
  }

  /** A pixel position (px, py) falls in the rectangle. */
  predicate Covers(r: Rect, px: real, py: real)
  {
    r.x <= px < r.x + r.w && r.y <= py < r.y + r.h
  }

  /** The two halves of the fallback split lie inside the frame and tile it:
      every pixel position of the frame is in exactly one of them. */
  lemma SplitTiles(vW: real, vH: real, alphaDirection: string)
    requires vW > 0.0 && vH > 0.0
    ensures var l := SplitLayout(vW, vH, alphaDirection);
      Inside(l.rgb, vW, vH) && Inside(l.alpha, vW, vH) &&
      forall px, py :: 0.0 <= px < vW && 0.0 <= py < vH ==>
        (Covers(l.rgb, px, py) <==> !Covers(l.alpha, px, py))
  {
  }

  /** The example of a 1800 x 1000 video with alpha on the right. */
  lemma SplitExample()
    ensures GetRgbaPos(None, Some(Video(1800, 1000)), "right")
         == Some(Layout(Rect(0.0, 0.0, 900.0, 1000.0), Rect(900.0, 0.0, 900.0, 1000.0), 1800.0, 1000.0))
  {
  }
}
