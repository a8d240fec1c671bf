/** The coordinate mapper of the WebGPU renderer (`computeCoord`): a pixel
    rectangle inside a reference frame becomes normalised texture coordinates. */
module Coord {

  /** A pixel rectangle: origin (x, y) measured from the top-left corner of the
      frame, width w and height h. The source passes these as `[x, y, w, h]`. */
  datatype Rect = Rect(x: real, y: real, w: real, h: real)

  /** Positions inside the 4-element result of ComputeCoord. */
  const Left: nat := 0
  const Right: nat := 1
  const Bottom: nat := 2
  const Top: nat := 3

  /** The rectangle lies wholly inside the frame [0, vw] x [0, vh]. */
  predicate Inside(r: Rect, vw: real, vh: real)
  {
    0.0 <= r.x && 0.0 <= r.y && 0.0 <= r.w && 0.0 <= r.h &&
    r.x + r.w <= vw && r.y + r.h <= vh
  }

  /** Every coordinate is a texture coordinate in [0, 1]. */
  predicate InUnit(c: seq<real>)
  {
    forall i :: 0 <= i < |c| ==> 0.0 <= c[i] <= 1.0
  }

  /** computeCoord: [leftX, rightX, bottomY, topY]. Texture space has its origin
      at the bottom, so the vertical axis is flipped. Division by a zero
      reference size (Infinity/NaN in the source) is excluded. */
  function ComputeCoord(x: real, y: real, w: real, h: real, vw: real, vh: real): (c: seq<real>)
    requires vw != 0.0 && vh != 0.0
    ensures |c| == 4
    ensures c[Right] - c[Left] == w / vw
    ensures c[Top] - c[Bottom] == h / vh
    ensures vw > 0.0 ==> (c[Left] < c[Right] <==> w > 0.0) && (c[Left] <= c[Right] <==> w >= 0.0)
    ensures vh > 0.0 ==> (c[Bottom] < c[Top] <==> h > 0.0) && (c[Bottom] <= c[Top] <==> h >= 0.0)
  {
    var leftX := x / vw;
    var rightX := (x + w) / vw;
    var bottomY := (vh - y - h) / vh;
    var topY := (vh - y) / vh;
    [leftX, rightX, bottomY, topY]
  }

  /** ComputeCoord applied to a Rect. */
  function CoordOf(r: Rect, vw: real, vh: real): (c: seq<real>)
    requires vw != 0.0 && vh != 0.0
    ensures |c| == 4
  {
    ComputeCoord(r.x, r.y, r.w, r.h, vw, vh)
  }

  /** The inverse mapping: texture coordinates back to the pixel rectangle. */
  function RectOf(c: seq<real>, vw: real, vh: real): Rect
    requires |c| == 4
  {
    Rect(c[Left] * vw, vh - c[Top] * vh, (c[Right] - c[Left]) * vw, (c[Top] - c[Bottom]) * vh)
  }

  lemma DivMul(a: real, b: real)
    requires b != 0.0
    ensures (a / b) * b == a
  {
  }

  /** Mapping a rectangle and mapping it back gives the rectangle again. */
  lemma RectOfCoord(r: Rect, vw: real, vh: real)
    requires vw != 0.0 && vh != 0.0
    ensures RectOf(CoordOf(r, vw, vh), vw, vh) == r
  {
  }

  /** Every 4-tuple of coordinates is the image of exactly one rectangle:
      mapping back and forth again gives the coordinates unchanged. */
  lemma CoordOfRect(c: seq<real>, vw: real, vh: real)
    requires |c| == 4 && vw != 0.0 && vh != 0.0
    ensures CoordOf(RectOf(c, vw, vh), vw, vh) == c
  {
    var d := CoordOf(RectOf(c, vw, vh), vw, vh);
    assert d[Left] == c[Left];
    assert d[Right] == c[Right];
    assert d[Top] == c[Top];
    assert d[Bottom] == c[Bottom];
  }

  /** With a positive reference size, a/b lies in [0, 1] exactly when 0 <= a <= b. */
  lemma UnitDiv(a: real, b: real)
    requires b > 0.0
    ensures 0.0 <= a / b <= 1.0 <==> 0.0 <= a <= b
  {
    DivMul(a, b);
  }

  /** A rectangle of non-negative size lies inside the frame exactly when all
      four of its texture coordinates lie in [0, 1]. */
  lemma InsideIffInUnit(r: Rect, vw: real, vh: real)
    requires vw > 0.0 && vh > 0.0 && r.w >= 0.0 && r.h >= 0.0
    ensures Inside(r, vw, vh) <==> InUnit(CoordOf(r, vw, vh))
  {
    var c := CoordOf(r, vw, vh);
    UnitDiv(r.x, vw);
    UnitDiv(r.x + r.w, vw);
    UnitDiv(vh - r.y - r.h, vh);
    UnitDiv(vh - r.y, vh);
    if InUnit(c) {
      assert 0.0 <= c[Left] <= 1.0 && 0.0 <= c[Right] <= 1.0;
      assert 0.0 <= c[Bottom] <= 1.0 && 0.0 <= c[Top] <= 1.0;
    }
  }
}
