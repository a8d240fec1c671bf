/** The renderer object (`RenderWebGPUBase`) as far as it keeps state that the
    geometry and sizing arithmetic produces: the canvas it owns, the options,
    and the contents it uploads to its vertex and uniform buffers. */
module Renderer {
  import opened Wrappers
  import opened Coord
  import opened RgbaPos
  import opened Vertices
  import Scale
  import opened PosUniform
  import opened Dom

  /** The options the core reads: fit mode, side of the alpha region, canvas
      CSS sizing policy. An empty string stands for an unset option. */
  datatype Options = Options(mode: string, alphaDirection: string, resizeCanvas: string)

  /** Sizing policies that set the CSS width, and those that set the CSS height. */
  const FullWidthPolicies: set<string> := {"percent", "percentW"}
  const FullHeightPolicies: set<string> := {"percent", "percentH"}

  /** Why the buffer set-up of `initGPUContext` stops: no adapter, no
      device, or no layout to build vertices from (`getRgbaPos` gave
      `undefined` and its destructuring threw). */
  datatype InitError = NoAdapter | NoDevice | NoLayout

  /** The backing size `resizeCanvasToDisplaySize` gives the canvas, before
      the canvas's own conversion to whole pixels; None when it returns early. */
  function DisplaySize(descript: Option<Descriptor>, video: Option<Video>): (r: Option<(real, real)>)
    ensures r.Some? <==> descript.Some? || video.Some?
    ensures descript.Some? ==> r.value == (descript.value.rgbFrame.w, descript.value.rgbFrame.h)
  {
    match descript
    case Some(d) => Some((d.rgbFrame.w, d.rgbFrame.h))
    case None =>
      match video
      case None => None
      case Some(v) =>
        var vw := if v.videoWidth != 0 then v.videoWidth as real / 2.0 else 900.0;
        var vh := if v.videoHeight != 0 then v.videoHeight as real else 1000.0;
        Some((vw, vh))
  }

  /** Whichever way the layout is resolved, the canvas is sized to the RGB
      region, independent of which side the alpha region is on. */
  lemma DisplaySizeIsRgbRegion(descript: Option<Descriptor>, video: Option<Video>, alphaDirection: string)
    requires descript.Some? || video.Some?
    ensures var l := GetRgbaPos(descript, video, alphaDirection).value;
      DisplaySize(descript, video) == Some((l.rgb.w, l.rgb.h))
  {
  }

  class RenderWebGpuBase {
    var op: Options
    /** Last drawn frame; -1 until a frame is drawn. */
    var currentFrame: int
    var video: Option<Video>
    /** The clip's descriptor (`videoEntity.config?.descript`). */
    var descript: Option<Descriptor>
    const ofs: Canvas
    /** What was written into the scale uniform buffer, the vertex buffer and
        the position uniform buffer; empty until each is created. */
    var scaleUniform: seq<real>
    var vertexBuffer: seq<real>
    var imgPosUniform: seq<real>

    /** The constructor and `createCanvas`: a new canvas, sized by the CSS
        policy when one is set. */
    constructor (op: Options)
      ensures this.op == op && currentFrame == -1 && video.None? && descript.None?
      ensures fresh(ofs)
      ensures ofs.width == DefaultCanvasWidth && ofs.height == DefaultCanvasHeight
      ensures ofs.styleWidth == (if op.resizeCanvas in FullWidthPolicies then "100%" else "")
      ensures ofs.styleHeight == (if op.resizeCanvas in FullHeightPolicies then "100%" else "")
      ensures ofs.className == ""
      ensures scaleUniform == [] && vertexBuffer == [] && imgPosUniform == []
    {
      this.op := op;
      currentFrame := -1;
      video, descript := None, None;
      ofs := new Canvas();
      scaleUniform, vertexBuffer, imgPosUniform := [], [], [];
      new;
      if op.resizeCanvas != "" {
        SetSizeCanvas(ofs, op.resizeCanvas);
      }
    }

    /** setSizeCanvas: `percent` sets both CSS sizes to 100%, `percentH` only
        the height, `percentW` only the width; anything else changes nothing. */
    method SetSizeCanvas(canvas: Canvas, resizeCanvas: string)
      modifies canvas`styleWidth, canvas`styleHeight
      ensures canvas.styleWidth == if resizeCanvas in FullWidthPolicies then "100%" else old(canvas.styleWidth)
      ensures canvas.styleHeight == if resizeCanvas in FullHeightPolicies then "100%" else old(canvas.styleHeight)
    {
      if resizeCanvas == "percent" {
        canvas.styleWidth := "100%";
        canvas.styleHeight := "100%";
      } else if resizeCanvas == "percentH" {
        canvas.styleHeight := "100%";
      } else if resizeCanvas == "percentW" {
        canvas.styleWidth := "100%";
      }
    }

    /** resizeCanvasToDisplaySize: the backing store takes the RGB region's
        size, as the canvas keeps it (whole pixels, the 300 x 150 default when
        out of range); without a descriptor and without a video nothing
        changes. */
    method ResizeCanvasToDisplaySize()
      modifies ofs`width, ofs`height
      ensures DisplaySize(descript, video).None? ==> ofs.width == old(ofs.width) && ofs.height == old(ofs.height)
      ensures DisplaySize(descript, video).Some? ==>
        var size := DisplaySize(descript, video).value;
        && ofs.width == CanvasDimension(size.0, DefaultCanvasWidth)
        && ofs.height == CanvasDimension(size.1, DefaultCanvasHeight)
    {
      var size := DisplaySize(descript, video);
      if size.None? {
        return;
      }
      ofs.width := CanvasDimension(size.value.0, DefaultCanvasWidth);
      ofs.height := CanvasDimension(size.value.1, DefaultCanvasHeight);
    }

    /** The sizes getScale divides by are positive whenever it divides;
        `clientWidth` x `clientHeight` is the canvas's laid-out size at the
        time of the call. */
    predicate ScaleReady(clientWidth: nat, clientHeight: nat)
      reads this, ofs
    {
      Scale.Active(video.Some?, op.mode) ==>
        Scale.PositiveSizes(clientWidth as real, clientHeight as real, ofs.width as real, ofs.height as real)
    }

    /** The CSS class getScale gives the canvas: `e-video-<mode in lower
        case>` when a video and a mode are present, else the class it had. */
    function ScaleClassName(previous: string): string
      reads this
    {
      if Scale.Active(video.Some?, op.mode) then "e-video-" + AsciiLower(op.mode) else previous
    }

    /** The scale getScale gives for the canvas's current sizes. */
    function CurrentScale(clientWidth: nat, clientHeight: nat): Scale.ScaleXY
      requires ScaleReady(clientWidth, clientHeight)
      reads this, ofs
    {
      Scale.GetScale(video.Some?, op.mode, clientWidth as real, clientHeight as real,
                     ofs.width as real, ofs.height as real)
    }

    /** getScale: the scale the fit mode gives for the canvas's current
        sizes; when it applies a mode, it also tags the canvas with the CSS
        class `e-video-<mode in lower case>`. */
    method GetScale(clientWidth: nat, clientHeight: nat) returns (s: Scale.ScaleXY)
      requires ScaleReady(clientWidth, clientHeight)
      modifies ofs`className
      ensures s == CurrentScale(clientWidth, clientHeight)
      ensures ofs.className == ScaleClassName(old(ofs.className))
    {
      if Scale.Active(video.Some?, op.mode) {
        ofs.className := "e-video-" + AsciiLower(op.mode);
      }
      s := Scale.GetScale(video.Some?, op.mode, clientWidth as real, clientHeight as real,
                          ofs.width as real, ofs.height as real);
    }

    /** setScaleUniform: the scale uniform buffer holds [scaleX, scaleY], and
        the canvas carries the class getScale gives it. */
    method SetScaleUniform(clientWidth: nat, clientHeight: nat)
      requires ScaleReady(clientWidth, clientHeight)
      modifies this`scaleUniform, ofs`className
      ensures scaleUniform == [CurrentScale(clientWidth, clientHeight).x, CurrentScale(clientWidth, clientHeight).y]
      ensures ofs.className == ScaleClassName(old(ofs.className))
    {
      var s := GetScale(clientWidth, clientHeight);
      scaleUniform := [s.x, s.y];
    }

    /** setVertextBuffer: the vertex buffer holds verriceArray; when there is
        neither a descriptor nor a video the getter throws its TypeError and
        the buffer is left as it was. */
    method SetVertexBuffer() returns (r: Result<(), VertexError>)
      requires descript.Some? ==> NonZeroSize(descript.value)
      modifies this`vertexBuffer
      ensures r.Success? <==> descript.Some? || video.Some?
      ensures r.Success? ==> vertexBuffer == VerriceArray(descript, video, op.alphaDirection).value
      ensures r.Success? ==> |vertexBuffer| == Stride * VertexCount
      ensures r.Failure? ==> r.error == UndefinedLayout && vertexBuffer == old(vertexBuffer)
    {
      var vertices := VerriceArray(descript, video, op.alphaDirection);
      if vertices.Failure? {
        return Failure(vertices.error);
      }
      vertexBuffer := vertices.value;
      r := Success(());
    }

    /** The buffer contents set up by `initGPUContext`: it fails without an
        adapter or a device, then writes the scale uniform (tagging the
        canvas), then the vertex buffer (whose getter throws when there is no
        layout). */
    method InitGpuContext(adapterAvailable: bool, deviceAvailable: bool, clientWidth: nat, clientHeight: nat) returns (r: Result<(), InitError>)
      requires ScaleReady(clientWidth, clientHeight)
      requires descript.Some? ==> NonZeroSize(descript.value)
      modifies this`scaleUniform, this`vertexBuffer, ofs`className
      ensures !adapterAvailable ==> r == Failure(NoAdapter)
      ensures adapterAvailable && !deviceAvailable ==> r == Failure(NoDevice)
      ensures adapterAvailable && deviceAvailable ==>
        && scaleUniform == [CurrentScale(clientWidth, clientHeight).x, CurrentScale(clientWidth, clientHeight).y]
        && ofs.className == ScaleClassName(old(ofs.className))
        && (r.Success? <==> descript.Some? || video.Some?)
        && (r.Success? ==> vertexBuffer == VerriceArray(descript, video, op.alphaDirection).value)
        && (r.Failure? ==> r.error == NoLayout && vertexBuffer == old(vertexBuffer))
      ensures !(adapterAvailable && deviceAvailable) ==>
        && scaleUniform == old(scaleUniform) && vertexBuffer == old(vertexBuffer)
        && ofs.className == old(ofs.className)
    {
      if !adapterAvailable {
        return Failure(NoAdapter);
      }
      if !deviceAvailable {
        return Failure(NoDevice);
      }
      SetScaleUniform(clientWidth, clientHeight);
      var vertices := SetVertexBuffer();
      r := if vertices.Success? then Success(()) else Failure(NoLayout);
    }

    /** setImgPosUniform: builds the position array from the frame's elements
        and the descriptor and stores it; a frame with too many elements
        fails with the RangeError and leaves the buffer as it was. */
    method SetImgPosUniform(frameItem: Option<seq<FrameElement>>, d: Descriptor, maxTextureDimension2D: int)
      returns (r: Result<seq<real>, PosUniform.Error>)
      requires ItemsOf(frameItem) == [] || NonZeroSize(d)
      modifies this`imgPosUniform
      ensures r == PosArray(frameItem, d, maxTextureDimension2D)
      ensures r.Success? ==> imgPosUniform == r.value
      ensures r.Failure? ==> imgPosUniform == old(imgPosUniform)
    {
      r := BuildPosArray(frameItem, d, maxTextureDimension2D);
      if r.Success? {
        imgPosUniform := r.value;
      }
    }
  }
}
