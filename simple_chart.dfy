/** The geometry of SimpleChart in SensorDashboard.js: a fixed series of six
    points drawn as a solid line, a dashed forecast line that reuses its last
    two points, and the grid, all mapped onto a 650 x 380 drawing with a
    60-unit margin. The SVG markup and the point strings are outside the
    model; each point is kept as a pair of coordinates. */
module SimpleChart {

  import opened Wrappers
  import opened SensorData

  const Width: real := 650.0
  const Height: real := 380.0
  const Padding: real := 60.0
  const MaxValue: real := 500.0
  const MinValue: real := 350.0
  const Range: real := MaxValue - MinValue

  /** One entry of the fixed series: `{ x, y, label }` (the label as `tag`). */
  datatype ChartPoint = ChartPoint(x: nat, y: real, tag: string)

  /** The series the chart draws, whatever the readings are. */
  const ChartData: seq<ChartPoint> := [
    ChartPoint(0, 410.0, "01/01"),
    ChartPoint(1, 430.0, "02/01"),
    ChartPoint(2, 430.0, "03/01"),
    ChartPoint(3, 465.0, "04/01"),
    ChartPoint(4, 445.0, "05/01"),
    ChartPoint(5, 470.0, "06/01")
  ]

  /** The two points the forecast line adds after the series. */
  const Forecast: seq<ChartPoint> := [
    ChartPoint(6, 445.0, "Tempo (dias)"),
    ChartPoint(7, 430.0, "")
  ]

  /** The values of the horizontal grid lines. */
  const GridValues: seq<real> := [350.0, 380.0, 410.0, 440.0, 470.0, 500.0]

  datatype Point = Point(x: real, y: real)

  /** What the chart draws once there is data: the solid line, the dashed
      line, the x of each vertical grid line and the y of each horizontal
      one. */
  datatype Chart = Chart(solid: seq<Point>, dashed: seq<Point>, vertical: seq<real>, horizontal: seq<real>)

  /** The vertical scale: a value's height in the drawing, larger values
      higher up (smaller y). */
  function ScaleY(value: real): real
  {
    Height - Padding - ((value - MinValue) / Range) * (Height - 2.0 * Padding)
  }

  /** The solid line's horizontal scale: the i-th of the six points. */
  function SolidX(i: nat): real
  {
    Padding + (i as real * (Width - 2.0 * Padding)) / (|ChartData| - 1) as real
  }

  /** The dashed line's horizontal scale: its i-th point sits at position
      `baseIndex + i` of a scale divided into |ChartData| + 1 steps. */
  function DashedX(i: nat): real
  {
    var baseIndex := |ChartData| - 2;
    Padding + ((baseIndex + i) as real * (Width - 2.0 * Padding)) / (|ChartData| + 1) as real
  }

  /** The points the dashed line goes through: the last two of the series,
      then the forecast. */
  function DashedSource(): (d: seq<ChartPoint>)
    ensures |d| == 4
  {
    ChartData[|ChartData| - 2..] + Forecast
  }

  /** SimpleChart: a waiting message (None) while there are no readings;
      otherwise the chart. */
  function Render(sensorData: seq<Reading>): (c: Option<Chart>)
    ensures c.None? <==> sensorData == []
    ensures c.Some? ==> |c.value.solid| == |ChartData| == |c.value.vertical|
    ensures c.Some? ==> |c.value.dashed| == |DashedSource()| && |c.value.horizontal| == |GridValues|
  {
    if sensorData == [] then None
    else
      var source := DashedSource();
      Some(Chart(
        seq(|ChartData|, i requires 0 <= i < |ChartData| => Point(SolidX(i), ScaleY(ChartData[i].y))),
        seq(|source|, i requires 0 <= i < |source| => Point(DashedX(i), ScaleY(source[i].y))),
        seq(|ChartData|, i requires 0 <= i < |ChartData| => SolidX(i)),
        seq(|GridValues|, i requires 0 <= i < |GridValues| => ScaleY(GridValues[i]))))
  }

  /** The scale maps the value range onto the drawing's height less the
      margins: the minimum at the bottom margin, the maximum at the top one,
      every value in between inside them, and larger values strictly
      higher. */
  lemma ScaleYSpansPlot(a: real, b: real)
    ensures ScaleY(MinValue) == Height - Padding && ScaleY(MaxValue) == Padding
    ensures MinValue <= a <= MaxValue ==> Padding <= ScaleY(a) <= Height - Padding
    ensures a < b ==> ScaleY(b) < ScaleY(a)
    ensures ScaleY(a) - ScaleY(b) == (b - a) * (Height - 2.0 * Padding) / Range
  {
  }

  /** The solid line and the vertical grid lines run from the left margin
      to the right one, left to right. */
  lemma SolidXSpansWidth(i: nat, j: nat)
    ensures SolidX(0) == Padding && SolidX(|ChartData| - 1) == Width - Padding
    ensures i < j ==> SolidX(i) < SolidX(j)
    ensures i < |ChartData| ==> Padding <= SolidX(i) <= Width - Padding
  {
  }

  /** The readings decide only whether the chart is drawn, never what it
      shows. */
  lemma RenderIgnoresReadings(a: seq<Reading>, b: seq<Reading>)
    requires a != [] && b != []
    ensures Render(a) == Render(b)
  {
  }

  /** Every point of the series lies inside the plotting area. */
  lemma SeriesInsidePlot(i: nat)
    requires i < |ChartData|
    ensures Padding <= SolidX(i) <= Width - Padding
    ensures Padding <= ScaleY(ChartData[i].y) <= Height - Padding
  {
    SolidXSpansWidth(i, i);
    ScaleYSpansPlot(ChartData[i].y, ChartData[i].y);
  }

  /** The horizontal grid lines are 52 units apart, from the bottom margin
      up to the top one. */
  lemma GridEvenlySpaced()
    ensures ScaleY(GridValues[0]) == Height - Padding && ScaleY(GridValues[|GridValues| - 1]) == Padding
    ensures forall i :: 0 < i < |GridValues| ==> ScaleY(GridValues[i - 1]) - ScaleY(GridValues[i]) == 52.0
  {
    forall i | 0 < i < |GridValues|
      ensures ScaleY(GridValues[i - 1]) - ScaleY(GridValues[i]) == 52.0
    {
      ScaleYSpansPlot(GridValues[i - 1], GridValues[i]);
    }
    ScaleYSpansPlot(MinValue, MaxValue);
  }

  /** The drawn chart: every solid point inside the plotting area, left to
      right, each vertical grid line through a solid point, and the
      horizontal grid lines evenly spaced from the bottom margin to the top
      one. */
  lemma {:induction false} ChartInsidePlot(sensorData: seq<Reading>)
    requires sensorData != []
    ensures var c := Render(sensorData).value;
      && (forall i :: 0 <= i < |c.solid| ==>
            Padding <= c.solid[i].x <= Width - Padding && Padding <= c.solid[i].y <= Height - Padding)
      && (forall i :: 0 <= i < |c.vertical| ==> c.vertical[i] == c.solid[i].x)
      && (forall i, j :: 0 <= i < j < |c.solid| ==> c.solid[i].x < c.solid[j].x)
      && c.horizontal[0] == Height - Padding && c.horizontal[|c.horizontal| - 1] == Padding
      && (forall i :: 0 < i < |c.horizontal| ==> c.horizontal[i - 1] - c.horizontal[i] == 52.0)
  {
    var c := Render(sensorData).value;
    forall i | 0 <= i < |c.solid|
      ensures Padding <= c.solid[i].x <= Width - Padding && Padding <= c.solid[i].y <= Height - Padding
    {
      SeriesInsidePlot(i);
    }
    forall i, j | 0 <= i < j < |c.solid|
      ensures c.solid[i].x < c.solid[j].x
    {
      SolidXSpansWidth(i, j);
    }
    GridEvenlySpaced();
  }

  /** The dashed line ends at the right margin on the last forecast value,
      and its first two points have the heights of the series' last two.
      Their horizontal positions, though, are on a scale of seven steps
      where the solid line's is of five, so the dashed line does not start
      at the solid line's fifth point (x = 484) but left of it, at
      60 + 4 * 530 / 7. */
  lemma DashedLineGeometry(sensorData: seq<Reading>)
    requires sensorData != []
    ensures var c := Render(sensorData).value;
      && c.dashed[3] == Point(Width - Padding, ScaleY(430.0))
      && c.dashed[0].y == c.solid[4].y && c.dashed[1].y == c.solid[5].y
      && c.solid[4].x == 484.0
      && c.dashed[0].x == Padding + 4.0 * 530.0 / 7.0 < c.solid[4].x
      && c.dashed[1].x < c.solid[5].x
  {
    var c := Render(sensorData).value;
    assert DashedSource()[0] == ChartData[4] && DashedSource()[1] == ChartData[5];
    assert DashedSource()[3].y == 430.0;
    assert c.dashed[0].x == DashedX(0) && c.solid[4].x == SolidX(4);
  }
}
