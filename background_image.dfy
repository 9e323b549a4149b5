/**
 * The class-banner generator: a background picture fitted inside an
 * 800 by 600 canvas (or a plain grey fill when no picture is loaded), the
 * class year written over it, and an HD copy drawn at twice the
 * resolution for download.
 */
module BackgroundImage {
  import opened Wrappers
  import opened Canvas

  /** A loaded picture's natural size. */
  datatype Image = Image(width: real, height: real)

  const CanvasWidth: real := 800.0
  const CanvasHeight: real := 600.0
  const HdScale: real := 2.0
  const FallbackFill := "#f0f0f0"
  const TextFont := "700 100px Antonio, Arial, sans-serif"
  const HdFileName := "hd-class-banner.png"

  // ---------------------------------------------------------------------
  // Contain-fit geometry
  // ---------------------------------------------------------------------

  predicate Positive(img: Image, cw: real, ch: real) {
    img.width > 0.0 && img.height > 0.0 && cw > 0.0 && ch > 0.0
  }

  /**
   * The largest rectangle with the picture's proportions that fits the
   * canvas, centred: a picture wider than the canvas spans its width,
   * any other spans its height.
   */
  function ContainFit(img: Image, cw: real, ch: real): (r: Rect)
    requires Positive(img, cw, ch)
    ensures img.width / img.height > cw / ch ==> r.w == cw && r.x == 0.0 && r.y == (ch - r.h) / 2.0
    ensures img.width / img.height <= cw / ch ==> r.h == ch && r.y == 0.0 && r.x == (cw - r.w) / 2.0
  {
    var imgAspect := img.width / img.height;
    var canvasAspect := cw / ch;
    if imgAspect > canvasAspect then
      var h := cw / imgAspect;
      Rect(0.0, (ch - h) / 2.0, cw, h)
    else
      var w := ch * imgAspect;
      Rect((cw - w) / 2.0, 0.0, w, ch)
  }

  /** The fitted rectangle has the picture's proportions. */
  lemma FitKeepsAspect(img: Image, cw: real, ch: real)
    requires Positive(img, cw, ch)
    ensures var r := ContainFit(img, cw, ch);
      r.w * img.height == r.h * img.width
  {
    var a := img.width / img.height;
    assert a * img.height == img.width;
    var r := ContainFit(img, cw, ch);
    if a > cw / ch {
      assert r.h * a == cw;
    } else {
      assert r.w == ch * a;
    }
  }

  /** The fitted rectangle is non-empty and lies inside the canvas. */
  lemma FitInsideCanvas(img: Image, cw: real, ch: real)
    requires Positive(img, cw, ch)
    ensures var r := ContainFit(img, cw, ch);
      0.0 <= r.x && 0.0 <= r.y && 0.0 < r.w && 0.0 < r.h &&
      r.x + r.w <= cw && r.y + r.h <= ch
  {
    var a := img.width / img.height;
    var c := cw / ch;
    assert c * ch == cw;
    var r := ContainFit(img, cw, ch);
    if a > c {
      assert r.h * a == cw;
      assert r.h * a < ch * a by {
        assert ch * a > ch * c;
      }
    } else {
      assert r.w == ch * a;
      assert ch * a <= ch * c;
    }
  }

  /** The fitted rectangle is centred: it leaves as much room on one side as on the other. */
  lemma FitCentred(img: Image, cw: real, ch: real)
    requires Positive(img, cw, ch)
    ensures var r := ContainFit(img, cw, ch);
      r.x == cw - (r.x + r.w) && r.y == ch - (r.y + r.h)
  {
  }

  // ---------------------------------------------------------------------
  // The recorded picture
  // ---------------------------------------------------------------------

  /**
   * The style in force for the caption: white, bold 100px, centred, with a
   * 2px shadow offset. No shadow colour is set, so the shadow keeps the
   * default transparent colour and never shows.
   */
  const CaptionStyle := DefaultStyle.(fillStyle := "#ffffff", font := TextFont, textAlign := "center",
                                      textBaseline := "middle", shadowOffsetX := 2.0, shadowOffsetY := 2.0)

  /** The caption style with the shadow switched off again. */
  const ShadowReset := CaptionStyle.(shadowColor := "transparent", shadowBlur := 0.0,
                                     shadowOffsetX := 0.0, shadowOffsetY := 0.0)

  /** The caption's anchor: right of centre by 195 and below it by 60, in canvas units. */
  const CaptionX: real := CanvasWidth / 2.0 + 195.0
  const CaptionY: real := CanvasHeight / 2.0 + 60.0

  /** A picture the browser has decoded has a positive size. */
  predicate Loaded(bg: Option<Image>) {
    bg.Some? ==> bg.value.width > 0.0 && bg.value.height > 0.0
  }

  /** The background and the caption, drawn from the default style at scale `s`. */
  function Layers(text: string, bg: Option<Image>, s: real): seq<Op>
    requires Loaded(bg)
  {
    var backdrop :=
      match bg
      case Some(img) =>
        Draw(DrawImage(ContainFit(img, CanvasWidth, CanvasHeight)), DefaultStyle, s)
      case None =>
        Draw(FillRect(Rect(0.0, 0.0, CanvasWidth, CanvasHeight)), DefaultStyle.(fillStyle := FallbackFill), s);
    [backdrop, Draw(FillText(text, CaptionX, CaptionY), CaptionStyle, s)]
  }

  /** The preview: cleared, then the layers at scale 1. */
  function PreviewPicture(text: string, bg: Option<Image>): seq<Op>
    requires Loaded(bg)
  {
    [Draw(ClearRect(Rect(0.0, 0.0, CanvasWidth, CanvasHeight)), DefaultStyle, 1.0)] + Layers(text, bg, 1.0)
  }

  /** Without a picture the preview fills the whole canvas grey, after clearing and before the caption. */
  lemma PreviewFallback(text: string)
    ensures var p := PreviewPicture(text, None);
      |p| == 3 && p[1].shape == FillRect(Rect(0.0, 0.0, 800.0, 600.0)) &&
      p[1].style.fillStyle == "#f0f0f0" && p[2].shape.FillText?
  {
  }

  /** The caption is the last thing drawn, centred on (595, 360) in white, with a 2px offset but transparent, hence invisible, shadow. */
  lemma CaptionLast(text: string, bg: Option<Image>, s: real)
    requires Loaded(bg)
    ensures var l := Layers(text, bg, s);
      l[|l| - 1] == Draw(FillText(text, 595.0, 360.0), CaptionStyle, s) &&
      CaptionStyle.textAlign == "center" && CaptionStyle.textBaseline == "middle" &&
      CaptionStyle.shadowOffsetX == 2.0 && CaptionStyle.fillStyle == "#ffffff"
  {
  }

  /** With a picture, it is drawn over exactly the contain-fit rectangle. */
  lemma PictureFitted(text: string, img: Image, s: real)
    requires img.width > 0.0 && img.height > 0.0
    ensures Layers(text, Some(img), s)[0].shape == DrawImage(ContainFit(img, CanvasWidth, CanvasHeight))
  {
  }

  /**
   * The HD copy repeats the preview's drawing calls at the same logical
   * coordinates, only without the clearing and at twice the scale. The
   * source writes the drawing out twice, once in `drawCanvas` and once in
   * `downloadImage`; the two blocks draw the same calls in the same order
   * with the same style settings, so both are modelled by `Layers`, and
   * this lemma holds by that shared definition.
   */
  lemma HdMatchesPreview(text: string, bg: Option<Image>)
    requires Loaded(bg)
    ensures var p := PreviewPicture(text, bg);
      var hd := Layers(text, bg, HdScale);
      |hd| + 1 == |p| &&
      forall k :: 0 <= k < |hd| ==>
        hd[k].shape == p[k + 1].shape && hd[k].style == p[k + 1].style &&
        hd[k].scale == 2.0 && p[k + 1].scale == 1.0
  {
  }

  // ---------------------------------------------------------------------
  // The component
  // ---------------------------------------------------------------------

  /**
   * The drawing steps shared by the preview and the HD copy: the picture
   * fitted, or the grey fill, then the caption.
   */
  method Paint(ctx: Context, text: string, bg: Option<Image>)
    requires Loaded(bg) && ctx.style == DefaultStyle
    modifies ctx
    ensures ctx.ops == old(ctx.ops) + Layers(text, bg, ctx.scale)
    ensures ctx.style == CaptionStyle
    ensures ctx.width == old(ctx.width) && ctx.height == old(ctx.height) && ctx.scale == old(ctx.scale)
  {
    if bg.Some? {
      ctx.Issue(DrawImage(ContainFit(bg.value, CanvasWidth, CanvasHeight)));
    } else {
      ctx.SetStyle(ctx.style.(fillStyle := FallbackFill));
      ctx.Issue(FillRect(Rect(0.0, 0.0, CanvasWidth, CanvasHeight)));
    }
    ctx.SetStyle(ctx.style.(fillStyle := "#ffffff", font := TextFont, textAlign := "center", textBaseline := "middle"));
    ctx.SetStyle(ctx.style.(shadowOffsetX := 2.0, shadowOffsetY := 2.0));
    ctx.Issue(FillText(text, CaptionX, CaptionY));
  }

  class BannerGenerator {
    /** The caption, passed in by the shirt-design page. */
    var text: string
    var background: Option<Image>
    /** The preview canvas and its 2D context; null before it is mounted or when it has no context. */
    var canvas: Context?

    /** Mounting: no picture loaded yet, and the preview drawn with the grey fill. */
    constructor (text: string, canvas: Context?)
      modifies canvas
      ensures this.text == text && background == None && this.canvas == canvas
      ensures canvas != null ==> canvas.ops == PreviewPicture(text, None)
    {
      this.text := text;
      background := None;
      this.canvas := canvas;
      new;
      DrawCanvas();
    }

    /**
     * `drawCanvas`: resize the preview (which clears it and resets its
     * style), draw the layers, then switch the shadow off. Without a
     * canvas nothing happens.
     */
    method DrawCanvas()
      requires Loaded(background)
      modifies canvas
      ensures canvas != null ==>
        canvas.width == CanvasWidth && canvas.height == CanvasHeight && canvas.scale == 1.0 &&
        canvas.ops == PreviewPicture(text, background) && canvas.style == ShadowReset
    {
      var ctx := canvas;
      if ctx == null {
        return;
      }
      ctx.Resize(CanvasWidth, CanvasHeight);
      ctx.Issue(ClearRect(Rect(0.0, 0.0, CanvasWidth, CanvasHeight)));
      Paint(ctx, text, background);
      ctx.SetStyle(ctx.style.(shadowColor := "transparent", shadowBlur := 0.0));
      ctx.SetStyle(ctx.style.(shadowOffsetX := 0.0, shadowOffsetY := 0.0));
    }

    /** A new caption redraws the preview. */
    method TextChanged(t: string)
      requires Loaded(background)
      modifies this`text, canvas
      ensures text == t && background == old(background)
      ensures canvas != null ==> canvas.ops == PreviewPicture(t, background)
    {
      text := t;
      DrawCanvas();
    }

    /** The default picture finished loading: it becomes the background and the preview is redrawn. */
    method ImageLoaded(img: Image)
      requires img.width > 0.0 && img.height > 0.0
      modifies this`background, canvas
      ensures background == Some(img) && text == old(text)
      ensures canvas != null ==> canvas.ops == PreviewPicture(text, Some(img))
    {
      background := Some(img);
      DrawCanvas();
    }

    /**
     * `downloadImage`: draws the same layers on a fresh 1600 by 1200
     * canvas scaled by 2 and offers it as "hd-class-banner.png". Nothing
     * is offered without a preview canvas, without a context for the new
     * canvas, or when the browser produces no image data.
     */
    method DownloadImage(contextAvailable: bool, blobProduced: bool) returns (file: Option<DownloadFile>)
      requires Loaded(background)
      ensures file.Some? <==> canvas != null && contextAvailable && blobProduced
      ensures file.Some? ==>
        file.value == DownloadFile(HdFileName, CanvasWidth * HdScale, CanvasHeight * HdScale,
                                   Layers(text, background, HdScale))
    {
      if canvas == null {
        return None;
      }
      var hd := new Context();
      if !contextAvailable {
        return None;
      }
      hd.Resize(CanvasWidth * HdScale, CanvasHeight * HdScale);
      hd.Scale(HdScale);
      Paint(hd, text, background);
      if blobProduced {
        file := Some(DownloadFile(HdFileName, hd.width, hd.height, hd.ops));
      } else {
        file := None;
      }
    }
  }
}
