/**
 * The shirt-design page: the class-year picker, the "CLASS <year>" back
 * print drawn on a high-density canvas, and its download.
 */
module TextGenerator {
  import opened Wrappers
  import opened Text
  import opened Canvas

  const FirstYear := 1973
  const LastYear := 2025
  /** The year shown before the user picks one. */
  const DefaultText := "2025"

  const DisplayWidth: real := 800.0
  const DisplayHeight: real := 400.0
  const CenterX: real := DisplayWidth / 2.0
  const CenterY: real := DisplayHeight / 2.0
  const TaglineY: real := CenterY + 70.0
  const Tagline := "\U{201C}Where dreams begin and memories never end.\U{201D}"
  const ShirtFileName := "hd-back-t-shirt-design.png"

  // ---------------------------------------------------------------------
  // The year picker
  // ---------------------------------------------------------------------

  /** The picker's entries, newest first: one decimal year per step down to 1973. */
  method YearOptions() returns (years: seq<string>)
    ensures |years| == LastYear - FirstYear + 1
    ensures forall k :: 0 <= k < |years| ==> years[k] == IntToString(LastYear - k)
  {
    years := [];
    var year := LastYear;
    while year >= FirstYear
      invariant FirstYear - 1 <= year <= LastYear
      invariant |years| == LastYear - year
      invariant forall k :: 0 <= k < |years| ==> years[k] == IntToString(LastYear - k)
    {
      years := years + [IntToString(year)];
      year := year - 1;
    }
  }

  /**
   * The picker as the method builds it: 53 entries whose years fall
   * strictly from 2025 to 1973, with no label repeated, and the default
   * "2025" first.
   */
  lemma {:induction false} YearOptionsShape(years: seq<string>)
    requires |years| == LastYear - FirstYear + 1
    requires forall k :: 0 <= k < |years| ==> years[k] == IntToString(LastYear - k)
    ensures |years| == 53 && years[0] == DefaultText
    ensures forall k :: 0 <= k < |years| ==> AllDigits(years[k]) && FirstYear <= DigitsValue(years[k]) <= LastYear
    ensures forall i, j :: 0 <= i < j < |years| ==> DigitsValue(years[i]) > DigitsValue(years[j])
    ensures forall i, j :: 0 <= i < j < |years| ==> years[i] != years[j]
  {
    forall k | 0 <= k < |years|
      ensures AllDigits(years[k]) && DigitsValue(years[k]) == LastYear - k
    {
      NatToStringValue(LastYear - k);
    }
    assert years[0] == NatToString(2025);
    assert NatToString(2025) == NatToString(202) + [DigitChar(5)];
    assert NatToString(202) == NatToString(20) + [DigitChar(2)];
    assert NatToString(20) == NatToString(2) + [DigitChar(0)];
  }

  // ---------------------------------------------------------------------
  // The back print
  // ---------------------------------------------------------------------

  /** The main line of the print. */
  function Label(text: string): (r: string)
    ensures |r| == |text| + 6 && r[..6] == "CLASS " && r[6..] == text
  {
    "CLASS " + text
  }

  /** `window.devicePixelRatio || 1`: a missing (zero) ratio counts as 1. */
  function PixelRatio(raw: real): (r: real)
    ensures raw != 0.0 ==> r == raw
    ensures raw == 0.0 ==> r == 1.0
    ensures r != 0.0
  {
    if raw == 0.0 then 1.0 else raw
  }

  /** The label's style: bold 80px, centred, outlined 8px light grey with rounded joins, filled dark grey. */
  const LabelStroke := DefaultStyle.(font := "700 80px Antonio, Arial, sans-serif", textAlign := "center",
                                     textBaseline := "middle", strokeStyle := "#d9d9d9", lineWidth := 8.0,
                                     lineJoin := "round", lineCap := "round")
  const LabelFill := LabelStroke.(fillStyle := "#545454")
  /** The tagline's style: 35px, outlined 5px in the same grey, filled the same dark grey. */
  const TaglineStroke := LabelFill.(font := "700 35px Nautilus Pompilius, sans-serif", lineWidth := 5.0)
  const TaglineFill := TaglineStroke.(fillStyle := "#545454")

  /** The recorded picture at pixel ratio `dpr`. */
  function ShirtPicture(text: string, dpr: real): seq<Op> {
    [ Draw(ClearRect(Rect(0.0, 0.0, DisplayWidth, DisplayHeight)), DefaultStyle, dpr),
      Draw(StrokeText(Label(text), CenterX, CenterY), LabelStroke, dpr),
      Draw(FillText(Label(text), CenterX, CenterY), LabelFill, dpr),
      Draw(StrokeText(Tagline, CenterX, TaglineY), TaglineStroke, dpr),
      Draw(FillText(Tagline, CenterX, TaglineY), TaglineFill, dpr) ]
  }

  /**
   * Each layer is outlined before it is filled, at the same spot: the
   * label at the centre (400, 200), the tagline 70 below it.
   */
  lemma StrokeBeforeFill(text: string, dpr: real)
    ensures var p := ShirtPicture(text, dpr);
      forall k :: 1 <= k < |p| && p[k].shape.StrokeText? ==>
        k + 1 < |p| && p[k + 1].shape.FillText? &&
        p[k + 1].shape.text == p[k].shape.text &&
        p[k + 1].shape.x == p[k].shape.x && p[k + 1].shape.y == p[k].shape.y
    ensures var p := ShirtPicture(text, dpr);
      p[1].shape == StrokeText("CLASS " + text, 400.0, 200.0) &&
      p[3].shape == StrokeText(Tagline, 400.0, 270.0)
  {
  }

  // ---------------------------------------------------------------------
  // The component
  // ---------------------------------------------------------------------

  class ShirtDesigner {
    /** The picked year. */
    var text: string
    /** The hidden drawing canvas with its 2D context; null when it or its context is missing. */
    var canvas: Context?

    /** Mounting stores the default year, and the `[text]` effect draws its print at once. */
    constructor (canvas: Context?, rawDpr: real)
      modifies canvas
      ensures text == DefaultText && this.canvas == canvas
      ensures canvas != null ==>
        var dpr := PixelRatio(rawDpr);
        canvas.width == DisplayWidth * dpr && canvas.height == DisplayHeight * dpr &&
        canvas.scale == dpr && canvas.ops == ShirtPicture(DefaultText, dpr)
    {
      text := DefaultText;
      this.canvas := canvas;
      new;
      DrawText(rawDpr);
    }

    /**
     * `drawText`: the canvas is sized to 800 by 400 times the pixel ratio,
     * scaled by it, cleared, then both layers are drawn. Without a canvas
     * or context nothing happens.
     */
    method DrawText(rawDpr: real)
      modifies canvas
      ensures canvas != null ==>
        var dpr := PixelRatio(rawDpr);
        canvas.width == DisplayWidth * dpr && canvas.height == DisplayHeight * dpr &&
        canvas.scale == dpr && canvas.ops == ShirtPicture(text, dpr)
    {
      var ctx := canvas;
      if ctx == null {
        return;
      }
      var dpr := PixelRatio(rawDpr);
      ctx.Resize(DisplayWidth * dpr, DisplayHeight * dpr);
      ctx.Scale(dpr);
      ctx.Issue(ClearRect(Rect(0.0, 0.0, DisplayWidth, DisplayHeight)));
      ctx.SetStyle(ctx.style.(font := "700 80px Antonio, Arial, sans-serif", textAlign := "center", textBaseline := "middle"));
      ctx.SetStyle(ctx.style.(strokeStyle := "#d9d9d9", lineWidth := 8.0, lineJoin := "round", lineCap := "round"));
      ctx.Issue(StrokeText(Label(text), CenterX, CenterY));
      ctx.SetStyle(ctx.style.(fillStyle := "#545454"));
      ctx.Issue(FillText(Label(text), CenterX, CenterY));
      ctx.SetStyle(ctx.style.(font := "700 35px Nautilus Pompilius, sans-serif", textAlign := "center", textBaseline := "middle"));
      ctx.SetStyle(ctx.style.(strokeStyle := "#d9d9d9", lineWidth := 5.0, lineJoin := "round", lineCap := "round"));
      ctx.Issue(StrokeText(Tagline, CenterX, TaglineY));
      ctx.SetStyle(ctx.style.(fillStyle := "#545454"));
      ctx.Issue(FillText(Tagline, CenterX, TaglineY));
    }

    /** Picking a year redraws the print once the fonts are ready (or after the fallback delay). */
    method SelectYear(year: string, rawDpr: real)
      modifies this`text, canvas
      ensures text == year
      ensures canvas != null ==> canvas.ops == ShirtPicture(year, PixelRatio(rawDpr))
    {
      text := year;
      DrawText(rawDpr);
    }

    /** `downloadCanvas`: the canvas as it stands, offered as "hd-back-t-shirt-design.png"; nothing without a canvas. */
    method DownloadCanvas() returns (file: Option<DownloadFile>)
      ensures file.Some? <==> canvas != null
      ensures canvas != null ==>
        file == Some(DownloadFile(ShirtFileName, canvas.width, canvas.height, canvas.ops))
    {
      if canvas == null {
        return None;
      }
      file := Some(DownloadFile(ShirtFileName, canvas.width, canvas.height, canvas.ops));
    }
  }
}
