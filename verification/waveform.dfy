/** The waveform display: a dashed grid, the samples traced as one path
    from left to right around the horizontal midline, the area under it
    filled, and a centre line. The colours depend only on whether the page
    is recording. Drawing is modelled as the segments and path it produces. */
module Waveform {
  import opened Wrappers

  /** A straight line from (x0, y0) to (x1, y1). */
  datatype Segment = Segment(x0: real, y0: real, x1: real, y1: real)

  // ---------------------------------------------------------------------
  // The grid

  /** The height of the `i`th horizontal grid line. */
  function GridY(height: real, i: nat): real {
    height / 4.0 * i as real
  }

  /** The position of the `i`th vertical grid line. */
  function GridX(width: real, i: nat): real {
    width / 8.0 * i as real
  }

  /** The grid loops: five horizontal lines at `height / 4` steps and nine
      vertical lines at `width / 8` steps, each across the whole canvas. */
  method GridLines(width: real, height: real) returns (horizontal: seq<Segment>, vertical: seq<Segment>)
    ensures |horizontal| == 5 && |vertical| == 9
    ensures forall i :: 0 <= i < 5 ==> horizontal[i] == Segment(0.0, GridY(height, i), width, GridY(height, i))
    ensures forall i :: 0 <= i < 9 ==> vertical[i] == Segment(GridX(width, i), 0.0, GridX(width, i), height)
  {
    horizontal := [];
    var i := 0;
    while i <= 4
      invariant 0 <= i <= 5 && |horizontal| == i
      invariant forall k :: 0 <= k < i ==> horizontal[k] == Segment(0.0, GridY(height, k), width, GridY(height, k))
    {
      var y := height / 4.0 * i as real;
      horizontal := horizontal + [Segment(0.0, y, width, y)];
      i := i + 1;
    }
    vertical := [];
    i := 0;
    while i <= 8
      invariant 0 <= i <= 9 && |vertical| == i
      invariant forall k :: 0 <= k < i ==> vertical[k] == Segment(GridX(width, k), 0.0, GridX(width, k), height)
    {
      var x := width / 8.0 * i as real;
      vertical := vertical + [Segment(x, 0.0, x, height)];
      i := i + 1;
    }
  }

  /** The dashed centre line drawn last. */
  function CentreLine(width: real, height: real): Segment {
    Segment(0.0, height / 2.0, width, height / 2.0)
  }

  /** The grid frames the canvas: the outer lines lie on its edges, the
      lines are evenly spaced, and the middle horizontal line is the centre
      line. */
  lemma GridFramesCanvas(width: real, height: real)
    ensures GridY(height, 0) == 0.0 && GridY(height, 4) == height
    ensures GridX(width, 0) == 0.0 && GridX(width, 8) == width
    ensures forall i: nat :: i < 4 ==> GridY(height, i + 1) - GridY(height, i) == height / 4.0
    ensures forall i: nat :: i < 8 ==> GridX(width, i + 1) - GridX(width, i) == width / 8.0
    ensures Segment(0.0, GridY(height, 2), width, GridY(height, 2)) == CentreLine(width, height)
  {
  }

  // ---------------------------------------------------------------------
  // The colours

  /** The stroke's three gradient stops, the glow and the fill's two stops. */
  datatype Palette = Palette(stroke: seq<string>, shadow: string, fill: seq<string>)

  /** Red to amber while recording, blue to cyan otherwise; each part is
      chosen by its own test of `isRecording`. */
  function PaletteFor(isRecording: bool): Palette {
    Palette(
      if isRecording then ["#ef4444", "#f97316", "#eab308"] else ["#3b82f6", "#8b5cf6", "#06b6d4"],
      if isRecording then "#ef4444" else "#3b82f6",
      if isRecording then ["rgba(239, 68, 68, 0.3)", "rgba(239, 68, 68, 0.05)"]
      else ["rgba(59, 130, 246, 0.3)", "rgba(59, 130, 246, 0.05)"])
  }

  /** The three separate choices agree: the glow is the stroke's first
      colour, and the fill is a translucent shade of that same colour
      (#ef4444 is rgb(239, 68, 68), #3b82f6 is rgb(59, 130, 246)); the two
      palettes share no colour. */
  lemma PaletteIsCoherent(isRecording: bool)
    ensures PaletteFor(isRecording).shadow == PaletteFor(isRecording).stroke[0]
    ensures PaletteFor(isRecording).fill[0] ==
              if PaletteFor(isRecording).shadow == "#ef4444" then "rgba(239, 68, 68, 0.3)" else "rgba(59, 130, 246, 0.3)"
    ensures forall a, b :: 0 <= a < 3 && 0 <= b < 3 ==> PaletteFor(true).stroke[a] != PaletteFor(false).stroke[b]
  {
  }

  // ---------------------------------------------------------------------
  // The trace

  datatype PathOp = MoveTo(x: real, y: real) | LineTo(x: real, y: real)

  /** `v = sample * 0.5; y = v * height / 2 + height / 2`. */
  function SampleY(sample: real, height: real): real {
    (sample * 0.5 * height) / 2.0 + height / 2.0
  }

  /** A sample is plotted a quarter of the canvas height per unit below the
      midline (canvas y grows downwards): zero sits on the midline, positive
      samples below it, negative above, and samples within [-2, 2] stay on
      the canvas. */
  lemma SamplePlacement(sample: real, height: real)
    ensures SampleY(sample, height) == height / 2.0 + sample * height / 4.0
    ensures sample == 0.0 ==> SampleY(sample, height) == height / 2.0
    ensures height > 0.0 ==> (sample > 0.0 <==> SampleY(sample, height) > height / 2.0)
    ensures height >= 0.0 && -2.0 <= sample <= 2.0 ==> 0.0 <= SampleY(sample, height) <= height
  {
    if height >= 0.0 && -2.0 <= sample <= 2.0 {
      assert -2.0 * height <= sample * height <= 2.0 * height;
    }
    if height > 0.0 && sample > 0.0 {
      assert sample * height > 0.0;
    }
    if height > 0.0 && sample <= 0.0 {
      assert sample * height <= 0.0;
    }
  }

  /** Where sample `i` is plotted: `i` slices of `width / n` across, the
      first with `moveTo` and the rest with `lineTo`. */
  function PointAt(data: seq<real>, i: nat, width: real, height: real): PathOp
    requires i < |data|
  {
    var x := i as real * (width / |data| as real);
    if i == 0 then MoveTo(x, SampleY(data[i], height)) else LineTo(x, SampleY(data[i], height))
  }

  /** The sample loop, accumulating `x += sliceWidth`. */
  method TracePath(data: seq<real>, width: real, height: real) returns (path: seq<PathOp>)
    ensures |path| == |data|
    ensures forall i :: 0 <= i < |path| ==> path[i] == PointAt(data, i, width, height)
  {
    path := [];
    if |data| == 0 {
      return;
    }
    var sliceWidth := width / |data| as real;
    var x := 0.0;
    var i := 0;
    while i < |data|
      invariant 0 <= i <= |data| && |path| == i
      invariant x == i as real * sliceWidth
      invariant forall k :: 0 <= k < i ==> path[k] == PointAt(data, k, width, height)
    {
      var v := data[i] * 0.5;
      var y := (v * height) / 2.0 + height / 2.0;
      assert y == SampleY(data[i], height);
      if i == 0 {
        path := path + [MoveTo(x, y)];
      } else {
        path := path + [LineTo(x, y)];
      }
      assert path[i] == PointAt(data, i, width, height);
      x := x + sliceWidth;
      i := i + 1;
    }
  }

  /** The path starts with its only `moveTo`, at the left edge, and its x
      positions rise strictly and stay left of the right edge. */
  lemma PathRunsLeftToRight(data: seq<real>, width: real, height: real)
    requires width > 0.0
    ensures forall i :: 0 <= i < |data| ==> (PointAt(data, i, width, height).MoveTo? <==> i == 0)
    ensures |data| > 0 ==> PointAt(data, 0, width, height).x == 0.0
    ensures forall i, j :: 0 <= i < j < |data| ==> PointAt(data, i, width, height).x < PointAt(data, j, width, height).x
    ensures forall i :: 0 <= i < |data| ==> 0.0 <= PointAt(data, i, width, height).x < width
  {
    if |data| > 0 {
      var n := |data| as real;
      var slice := width / n;
      assert slice > 0.0;
      forall i, j | 0 <= i < j < |data|
        ensures PointAt(data, i, width, height).x < PointAt(data, j, width, height).x
      {
        assert j as real * slice - i as real * slice == (j - i) as real * slice;
      }
      forall i | 0 <= i < |data|
        ensures 0.0 <= PointAt(data, i, width, height).x < width
      {
        assert i as real * slice < n * slice;
        assert n * slice == width;
      }
    }
  }

  // ---------------------------------------------------------------------
  // The whole drawing

  datatype WaveDrawing = WaveDrawing(
    horizontal: seq<Segment>,
    vertical: seq<Segment>,
    palette: Palette,
    path: seq<PathOp>,
    fillOutline: seq<PathOp>,   // the path closed along the bottom edge
    centre: Segment)

  /** The drawing effect: nothing without data (or without a canvas or a
      context); otherwise the grid, the path, the filled area under it and
      the centre line, in the colours `isRecording` selects. */
  method Draw(audioData: Option<seq<real>>, hasCanvas: bool, isRecording: bool, width: real, height: real)
    returns (drawing: Option<WaveDrawing>)
    ensures drawing.Some? <==> hasCanvas && audioData.Some?
    ensures drawing.Some? ==>
              && drawing.value.palette == PaletteFor(isRecording)
              && |drawing.value.path| == |audioData.value|
              && (forall i :: 0 <= i < |audioData.value| ==> drawing.value.path[i] == PointAt(audioData.value, i, width, height))
              && drawing.value.fillOutline == drawing.value.path + [LineTo(width, height), LineTo(0.0, height)]
              && |drawing.value.horizontal| == 5 && |drawing.value.vertical| == 9
              && (forall i :: 0 <= i < 5 ==> drawing.value.horizontal[i] == Segment(0.0, GridY(height, i), width, GridY(height, i)))
              && (forall i :: 0 <= i < 9 ==> drawing.value.vertical[i] == Segment(GridX(width, i), 0.0, GridX(width, i), height))
              && drawing.value.centre == CentreLine(width, height)
  {
    if !hasCanvas || audioData.None? {
      return None;
    }
    var horizontal, vertical := GridLines(width, height);
    var path := TracePath(audioData.value, width, height);
    drawing := Some(WaveDrawing(horizontal, vertical, PaletteFor(isRecording), path,
                                path + [LineTo(width, height), LineTo(0.0, height)], CentreLine(width, height)));
  }
}
