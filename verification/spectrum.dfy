/** The frequency-spectrum display: one bar per bin in the lower half of the
    FFT buffer, laid out left to right, coloured by frequency band, with
    fixed axis labels. Drawing is modelled as the list of rectangles and
    labels it produces. */
module Spectrum {
  import opened Wrappers

  /** The colour bands of the bars. */
  datatype Band = Low | Mid | High

  /** Bin `i` of `n`: below n/8 is low, below n/4 mid, the rest high. The
      divisions are exact, so `i < n / 8` is `8 * i < n`. */
  function BandOf(i: nat, n: nat): Band {
    if 8 * i < n then Low else if 4 * i < n then Mid else High
  }

  /** The two colour stops of a bar's gradient, top first. */
  function BandStops(b: Band): (string, string) {
    match b
    case Low => ("#06b6d4", "#0891b2")
    case Mid => ("#8b5cf6", "#a855f7")
    case High => ("#ec4899", "#ef4444")
  }

  /** The glow colour, chosen by its own conditional expression. */
  function ShadowColour(i: nat, n: nat): string {
    if 8 * i < n then "#06b6d4" else if 4 * i < n then "#8b5cf6" else "#ec4899"
  }

  /** The glow always matches the top colour of the bar's band. */
  lemma ShadowMatchesBand(i: nat, n: nat)
    ensures ShadowColour(i, n) == BandStops(BandOf(i, n)).0
  {
  }

  /** Bands follow the bins: moving right never moves to a lower band, and
      for a 1024-bin buffer the low band is bins 0-127, the mid band
      128-255 and the high band from 256 on. */
  lemma BandsInOrder(i: nat, j: nat, n: nat)
    requires i <= j
    ensures BandOf(i, n) == High ==> BandOf(j, n) == High
    ensures BandOf(j, n) == Low ==> BandOf(i, n) == Low
    ensures BandOf(i, 1024) == (if i < 128 then Low else if i < 256 then Mid else High)
  {
  }

  /** `Math.max(1, (v + 140) * 2)`: decibels from -140 up mapped to pixels,
      never less than one. */
  function BarHeight(v: real): (h: real)
    ensures h >= 1.0 && h >= (v + 140.0) * 2.0
    ensures h == 1.0 || h == (v + 140.0) * 2.0
  {
    if (v + 140.0) * 2.0 > 1.0 then (v + 140.0) * 2.0 else 1.0
  }

  /** A filled rectangle with its gradient and glow. */
  datatype Bar = Bar(x: real, y: real, w: real, h: real, stops: (string, string), shadow: string)

  /** `(width / n) * 2.5`. */
  function BarWidth(width: real, n: nat): real
    requires n > 0
  {
    width / n as real * 2.5
  }

  /** The `i`th bar as a reference: it starts at `i` bar widths, is one
      pixel narrower than the step, stands on the bottom edge and takes the
      band's colours. */
  function BarAt(data: seq<real>, i: nat, width: real, height: real): Bar
    requires i < |data|
  {
    var h := BarHeight(data[i]);
    Bar(i as real * BarWidth(width, |data|), height - h, BarWidth(width, |data|) - 1.0, h,
        BandStops(BandOf(i, |data|)), ShadowColour(i, |data|))
  }

  /** The bar loop: one bar for each `i < n / 2`, placed by accumulating
      `x += barWidth`. */
  method DrawBars(data: seq<real>, width: real, height: real) returns (bars: seq<Bar>)
    ensures |bars| == (|data| + 1) / 2
    ensures forall i :: 0 <= i < |bars| ==> bars[i] == BarAt(data, i, width, height)
  {
    var n := |data|;
    bars := [];
    if n == 0 {
      return;
    }
    var barWidth := width / n as real * 2.5;
    var x := 0.0;
    var i := 0;
    while 2 * i < n
      invariant 0 <= i <= (n + 1) / 2
      invariant x == i as real * barWidth
      invariant |bars| == i
      invariant forall k :: 0 <= k < i ==> bars[k] == BarAt(data, k, width, height)
    {
      var h := BarHeight(data[i]);
      var stops := if 8 * i < n then ("#06b6d4", "#0891b2")
                   else if 4 * i < n then ("#8b5cf6", "#a855f7")
                   else ("#ec4899", "#ef4444");
      var shadow := if 8 * i < n then "#06b6d4" else if 4 * i < n then "#8b5cf6" else "#ec4899";
      bars := bars + [Bar(x, height - h, barWidth - 1.0, h, stops, shadow)];
      x := x + barWidth;
      i := i + 1;
    }
  }

  /** Every bar stands on the bottom edge and is at least a pixel tall. */
  lemma BarsStandOnBottom(data: seq<real>, i: nat, width: real, height: real)
    requires i < |data|
    ensures BarAt(data, i, width, height).h >= 1.0
    ensures BarAt(data, i, width, height).y + BarAt(data, i, width, height).h == height
  {
  }

  /** Bars step right by one bar width, so they never overlap. */
  lemma BarsDoNotOverlap(data: seq<real>, i: nat, width: real, height: real)
    requires i + 1 < |data|
    ensures BarAt(data, i + 1, width, height).x == BarAt(data, i, width, height).x + BarWidth(width, |data|)
    ensures BarAt(data, i, width, height).x + BarAt(data, i, width, height).w < BarAt(data, i + 1, width, height).x
  {
  }

  /** With a positive canvas width, bar `i` starts at or past the right
      edge exactly when `5 * i >= 2 * n`, i.e. from 40% of the bins on; the
      bars drawn thus cover a quarter more than the canvas. */
  lemma BarsPastRightEdge(data: seq<real>, i: nat, width: real, height: real)
    requires i < |data| && width > 0.0
    ensures BarAt(data, i, width, height).x >= width <==> 5 * i >= 2 * |data|
  {
    var n := |data| as real;
    var step := width / n;
    assert step > 0.0 && n * step == width;
    var a := i as real * 2.5;
    assert BarAt(data, i, width, height).x == a * step;
    ScaleCompare(a, n, step);
  }

  /** Scaling by a positive factor keeps the order. */
  lemma ScaleCompare(a: real, b: real, w: real)
    requires w > 0.0
    ensures a * w >= b * w <==> a >= b
  {
    var d := a - b;
    assert a * w - b * w == d * w;
    if d >= 0.0 {
      assert d * w >= 0.0;
    } else {
      assert d * w < 0.0;
    }
  }

  /** For an even number of bins the bars, laid end to end, span one and a
      quarter canvas widths. */
  lemma BarsSpan(n: nat, width: real)
    requires n > 0 && n % 2 == 0
    ensures ((n + 1) / 2) as real * BarWidth(width, n) == 1.25 * width
  {
    assert (n + 1) / 2 == n / 2;
    assert (n / 2) as real * 2.0 == n as real;
  }

  /** A text label drawn at a point. */
  datatype Label = Label(text: string, x: real, y: real)

  /** The frequency labels along the bottom. */
  function FrequencyLabels(width: real, height: real): seq<Label> {
    [Label("0 Hz", 20.0, height - 15.0), Label("1 kHz", width / 4.0, height - 15.0),
     Label("2 kHz", width / 2.0, height - 15.0), Label("4 kHz", 3.0 * width / 4.0, height - 15.0)]
  }

  /** The amplitude labels down the left side. */
  function AmplitudeLabels(height: real): seq<Label> {
    [Label("-140 dB", 15.0, 25.0), Label("-70 dB", 15.0, height / 2.0), Label("0 dB", 15.0, height - 35.0)]
  }

  datatype Drawing = Drawing(bars: seq<Bar>, labels: seq<Label>)

  /** The drawing effect: nothing without data (or without a canvas or a
      context), otherwise the bars and then the labels. */
  method Draw(fftData: Option<seq<real>>, hasCanvas: bool, width: real, height: real) returns (drawing: Option<Drawing>)
    ensures drawing.Some? <==> hasCanvas && fftData.Some?
    ensures drawing.Some? ==>
              && |drawing.value.bars| == (|fftData.value| + 1) / 2
              && (forall i :: 0 <= i < |drawing.value.bars| ==> drawing.value.bars[i] == BarAt(fftData.value, i, width, height))
              && drawing.value.labels == FrequencyLabels(width, height) + AmplitudeLabels(height)
  {
    if !hasCanvas || fftData.None? {
      return None;
    }
    var bars := DrawBars(fftData.value, width, height);
    drawing := Some(Drawing(bars, FrequencyLabels(width, height) + AmplitudeLabels(height)));
  }
}
