/** The geometry builder (`verriceArray`): six vertices, two triangles covering
    clip space, each vertex carrying a position, an RGB UV and an alpha UV. */
module Vertices {
  import opened Wrappers
  import opened Coord
  import opened RgbaPos

  /** Floats per vertex: clip x, clip y, RGB u, RGB v, alpha u, alpha v. */
  const Stride: nat := 6
  const VertexCount: nat := 6

  /** Clip-space positions in drawing order: top-right, bottom-right,
      bottom-left, then top-right, bottom-left, top-left. */
  const Corners: seq<(real, real)> := [(1.0, 1.0), (1.0, -1.0), (-1.0, -1.0), (1.0, 1.0), (-1.0, -1.0), (-1.0, 1.0)]

  /** The coordinate a vertex takes horizontally: right edge at clip x = +1, left edge otherwise. */
  function UIndex(clipX: real): nat
  {
    if clipX == 1.0 then Right else Left
  }

  /** The coordinate a vertex takes vertically: bottomY at clip y = +1, topY otherwise. */
  function VIndex(clipY: real): nat
  {
    if clipY == 1.0 then Bottom else Top
  }

  /** The i-th vertex of a vertex array. */
  function VertexAt(v: seq<real>, i: nat): (vx: seq<real>)
    requires i < VertexCount && |v| == Stride * VertexCount
    ensures |vx| == Stride
  {
    v[Stride * i .. Stride * i + Stride]
  }

  /** The vertex of layout l is well formed: it sits at the given corner and
      takes its RGB and alpha UVs from the coordinates that corner selects. */
  predicate PairedVertex(vx: seq<real>, corner: (real, real), rgb: seq<real>, alpha: seq<real>)
    requires |vx| == Stride && |rgb| == 4 && |alpha| == 4
  {
    vx[0] == corner.0 && vx[1] == corner.1 &&
    vx[2] == rgb[UIndex(corner.0)] && vx[3] == rgb[VIndex(corner.1)] &&
    vx[4] == alpha[UIndex(corner.0)] && vx[5] == alpha[VIndex(corner.1)]
  }

  /** The vertex data of a resolved layout, as the source pushes it. */
  function VertexArray(l: Layout): (v: seq<real>)
    requires l.vW != 0.0 && l.vH != 0.0
    ensures |v| == Stride * VertexCount
  {
    var rgbCoord := CoordOf(l.rgb, l.vW, l.vH);
    var aCoord := CoordOf(l.alpha, l.vW, l.vH);
    [1.0, 1.0, rgbCoord[1], rgbCoord[2], aCoord[1], aCoord[2]] +
    [1.0, -1.0, rgbCoord[1], rgbCoord[3], aCoord[1], aCoord[3]] +
    [-1.0, -1.0, rgbCoord[0], rgbCoord[3], aCoord[0], aCoord[3]] +
    [1.0, 1.0, rgbCoord[1], rgbCoord[2], aCoord[1], aCoord[2]] +
    [-1.0, -1.0, rgbCoord[0], rgbCoord[3], aCoord[0], aCoord[3]] +
    [-1.0, 1.0, rgbCoord[0], rgbCoord[2], aCoord[0], aCoord[2]]
  }

  /** Every vertex lies on its corner of the quad and pairs that corner with
      the matching edge of the RGB region and of the alpha region. */
  lemma VertexPairing(l: Layout)
    requires l.vW != 0.0 && l.vH != 0.0
    ensures var v := VertexArray(l);
      forall i :: 0 <= i < VertexCount ==>
        PairedVertex(VertexAt(v, i), Corners[i], CoordOf(l.rgb, l.vW, l.vH), CoordOf(l.alpha, l.vW, l.vH))
  {
    var v := VertexArray(l);
    var r, a := CoordOf(l.rgb, l.vW, l.vH), CoordOf(l.alpha, l.vW, l.vH);
    assert VertexAt(v, 0) == [1.0, 1.0, r[1], r[2], a[1], a[2]];
    assert VertexAt(v, 1) == [1.0, -1.0, r[1], r[3], a[1], a[3]];
    assert VertexAt(v, 2) == [-1.0, -1.0, r[0], r[3], a[0], a[3]];
    assert VertexAt(v, 3) == [1.0, 1.0, r[1], r[2], a[1], a[2]];
    assert VertexAt(v, 4) == [-1.0, -1.0, r[0], r[3], a[0], a[3]];
    assert VertexAt(v, 5) == [-1.0, 1.0, r[0], r[2], a[0], a[2]];
  }

  /** When both regions lie inside the frame, every UV of every vertex is a
      texture coordinate in [0, 1]. */
  lemma UVsInUnit(l: Layout)
    requires l.vW > 0.0 && l.vH > 0.0
    requires Inside(l.rgb, l.vW, l.vH) && Inside(l.alpha, l.vW, l.vH)
    ensures var v := VertexArray(l);
      forall i :: 0 <= i < VertexCount ==> InUnit(VertexAt(v, i)[2..])
  {
    var v := VertexArray(l);
    var rgb, alpha := CoordOf(l.rgb, l.vW, l.vH), CoordOf(l.alpha, l.vW, l.vH);
    InsideIffInUnit(l.rgb, l.vW, l.vH);
    InsideIffInUnit(l.alpha, l.vW, l.vH);
    VertexPairing(l);
    forall i | 0 <= i < VertexCount
      ensures InUnit(VertexAt(v, i)[2..])
    {
      var vx := VertexAt(v, i);
      assert PairedVertex(vx, Corners[i], rgb, alpha);
      assert 0.0 <= rgb[UIndex(Corners[i].0)] <= 1.0 && 0.0 <= rgb[VIndex(Corners[i].1)] <= 1.0;
      assert 0.0 <= alpha[UIndex(Corners[i].0)] <= 1.0 && 0.0 <= alpha[VIndex(Corners[i].1)] <= 1.0;
    }
  }

  /** The TypeError thrown by destructuring the `undefined` that getRgbaPos
      returns when there is neither a descriptor nor a video. */
  datatype VertexError = UndefinedLayout

  /** verriceArray: the 36 floats of the quad for the resolved layout, or the
      TypeError when there is no layout. */
  function VerriceArray(descript: Option<Descriptor>, video: Option<Video>, alphaDirection: string): (r: Result<seq<real>, VertexError>)
    requires descript.Some? ==> NonZeroSize(descript.value)
    ensures r.Success? <==> descript.Some? || video.Some?
    ensures r.Success? ==> |r.value| == Stride * VertexCount
  {
    match GetRgbaPos(descript, video, alphaDirection)
    case None => Failure(UndefinedLayout)
    case Some(l) => Success(VertexArray(l))
  }

  /** Without a descriptor, the fallback split always yields UVs in [0, 1]. */
  lemma FallbackUVsInUnit(video: Video, alphaDirection: string)
    ensures var l := GetRgbaPos(None, Some(video), alphaDirection).value;
      var v := VerriceArray(None, Some(video), alphaDirection).value;
      forall i :: 0 <= i < VertexCount ==> InUnit(VertexAt(v, i)[2..])
  {
    var l := GetRgbaPos(None, Some(video), alphaDirection).value;
    SplitTiles(l.vW, l.vH, alphaDirection);
    UVsInUnit(l);
  }
}
