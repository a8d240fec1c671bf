/** The per-element position array built by `setImgPosUniform`: for each
    element of the frame, its texture index and two mapped rectangles, then
    zero padding up to the device-bounded capacity. */
module PosUniform {
  import opened Wrappers
  import opened Coord
  import opened RgbaPos

  /** Numbers per element (the renderer's PER_SIZE): index + 4 + 4 coordinates. */
  const PerSize: nat := 9

  /** One element of a frame: the looked-up texture index (an opaque number),
      the rectangle to sample and the rectangle to draw to. */
  datatype FrameElement = FrameElement(textureIndex: real, renderFrame: Rect, outputFrame: Rect)

  /** `new Array(size - posArr.length)` with a negative length throws a RangeError. */
  datatype Error = InvalidArrayLength

  /** The capacity, in numbers, that the array is padded to. */
  function Capacity(maxTextureDimension2D: int): int
  {
    (maxTextureDimension2D - 1) * PerSize
  }

  /** The 9 numbers of one element: its index, the render rectangle offset by
      the RGB region's origin, and the output rectangle, both mapped against
      the descriptor's reference size. */
  function EncodeElement(e: FrameElement, d: Descriptor): (r: seq<real>)
    requires NonZeroSize(d)
    ensures |r| == PerSize
  {
    var rf, of := e.renderFrame, e.outputFrame;
    var coord := ComputeCoord(rf.x + d.rgbFrame.x, rf.y + d.rgbFrame.y, rf.w, rf.h, d.width, d.height);
    var mCoord := ComputeCoord(of.x, of.y, of.w, of.h, d.width, d.height);
    [e.textureIndex] + coord + mCoord
  }

  /** The elements encoded one after the other. */
  function EncodeElements(items: seq<FrameElement>, d: Descriptor): (r: seq<real>)
    requires items == [] || NonZeroSize(d)
    ensures |r| == PerSize * |items|
  {
    if items == [] then []
    else EncodeElements(items[..|items| - 1], d) + EncodeElement(items[|items| - 1], d)
  }

  /** Block k of the encoding is exactly the encoding of element k. */
  lemma {:induction false} EncodedBlock(items: seq<FrameElement>, d: Descriptor, k: nat)
    requires NonZeroSize(d) && k < |items|
    ensures EncodeElements(items, d)[PerSize * k .. PerSize * k + PerSize] == EncodeElement(items[k], d)
  {
    var n := |items| - 1;
    var prefix := items[..n];
    assert EncodeElements(items, d) == EncodeElements(prefix, d) + EncodeElement(items[n], d);
    if k < n {
      EncodedBlock(prefix, d, k);
      assert prefix[k] == items[k];
    }
  }

  /** The contents of the frame: `frameItem` when the frame has one. */
  function ItemsOf(frameItem: Option<seq<FrameElement>>): seq<FrameElement>
  {
    if frameItem.Some? then frameItem.value else []
  }

  /** The array as `setImgPosUniform` builds it: the encoded elements, then
      zeros up to the capacity, or the RangeError when they do not fit. */
  function PosArray(frameItem: Option<seq<FrameElement>>, d: Descriptor, maxTextureDimension2D: int): (r: Result<seq<real>, Error>)
    requires ItemsOf(frameItem) == [] || NonZeroSize(d)
    ensures var enc := EncodeElements(ItemsOf(frameItem), d);
      && (r.Success? <==> |enc| <= Capacity(maxTextureDimension2D))
      && (r.Success? ==>
            |r.value| == Capacity(maxTextureDimension2D) &&
            r.value[..|enc|] == enc &&
            forall i :: |enc| <= i < |r.value| ==> r.value[i] == 0.0)
  {
    var posArr := EncodeElements(ItemsOf(frameItem), d);
    var size := Capacity(maxTextureDimension2D);
    if size - |posArr| < 0 then Failure(InvalidArrayLength)
    else Success(posArr + seq(size - |posArr|, _ => 0.0))
  }

  /** The array fits exactly when the frame has at most maxTextureDimension2D - 1
      elements. */
  lemma FitsIffFewElements(frameItem: Option<seq<FrameElement>>, d: Descriptor, maxTextureDimension2D: int)
    requires ItemsOf(frameItem) == [] || NonZeroSize(d)
    ensures PosArray(frameItem, d, maxTextureDimension2D).Success? <==> |ItemsOf(frameItem)| <= maxTextureDimension2D - 1
  {
  }

  /** The example of a device limit of 8192 and a one-element frame: the array
      is the element's 9 numbers followed by zeros, 8191 * 9 numbers in all. */
  lemma OneElementExample(e: FrameElement, d: Descriptor)
    requires NonZeroSize(d)
    ensures var r := PosArray(Some([e]), d, 8192);
      r.Success? && |r.value| == 73719 &&
      r.value[..PerSize] == EncodeElement(e, d) &&
      forall i :: PerSize <= i < 73719 ==> r.value[i] == 0.0
  {
  }

  /** The loop of `setImgPosUniform`: push each element's index and
      concatenate its two mapped rectangles, then pad with zeros. */
  method BuildPosArray(frameItem: Option<seq<FrameElement>>, d: Descriptor, maxTextureDimension2D: int)
    returns (r: Result<seq<real>, Error>)
    requires ItemsOf(frameItem) == [] || NonZeroSize(d)
    ensures r == PosArray(frameItem, d, maxTextureDimension2D)
  {
    var posArr: seq<real> := [];
    if frameItem.Some? {
      var items := frameItem.value;
      var i := 0;
      while i < |items|
        invariant 0 <= i <= |items|
        invariant posArr == EncodeElements(items[..i], d)
      {
        var o := items[i];
        posArr := posArr + [o.textureIndex];
        var coord := ComputeCoord(o.renderFrame.x + d.rgbFrame.x, o.renderFrame.y + d.rgbFrame.y,
                                  o.renderFrame.w, o.renderFrame.h, d.width, d.height);
        var mCoord := ComputeCoord(o.outputFrame.x, o.outputFrame.y, o.outputFrame.w, o.outputFrame.h,
                                   d.width, d.height);
        posArr := posArr + coord + mCoord;
        assert items[..i + 1][..i] == items[..i];
        i := i + 1;
      }
      assert items[..|items|] == items;
    }
    var size := Capacity(maxTextureDimension2D);
    if size - |posArr| < 0 {
      r := Failure(InvalidArrayLength);
    } else {
      r := Success(posArr + seq(size - |posArr|, _ => 0.0));
    }
  }
}
