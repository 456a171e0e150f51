/** The series renderer: places one series' axes and labels on the plot area
    of a chart canvas. The placement arithmetic is given as functions
    (plot area, label slots, height percentages); the renderer itself is a
    class whose methods append drawing commands to the canvas's document. */
module SeriesRendering {
  import opened Drawing
  import opened Charts
  import opened Rounding

  /** Room reserved left of the plot area (y-axis labels) and below it (x-axis labels). */
  const LeftMargin: int := 25
  const BottomMargin: int := 20

  /** The plot area inside a graph area: adding back the reserved margins gives
      the graph area again. */
  function PlotArea(graphArea: Rect): (plot: Rect)
    ensures Rect(plot.width + LeftMargin, plot.height + BottomMargin) == graphArea
  {
    Rect(graphArea.width - LeftMargin, graphArea.height - BottomMargin)
  }

  /** The statistics labelled on the y axis, a missing one taken as 0. */
  datatype AxisStatistics = AxisStatistics(max: int, min: int, avg: int, mid: int)

  /** mid is the midpoint of min and max rounded down, as Ruby's Integer
      division rounds (toward negative infinity). */
  function StatisticsOf(s: Series): (st: AxisStatistics)
    ensures st.max == OrZero(s.max) && st.min == OrZero(s.min) && st.avg == OrZero(s.avg)
    ensures 2 * st.mid <= st.min + st.max < 2 * st.mid + 2
  {
    var max, min, avg := OrZero(s.max), OrZero(s.min), OrZero(s.avg);
    AxisStatistics(max, min, avg, (min + max) / 2)
  }

  /** Height of `value` relative to the largest maximum of all series on the
      canvas, in hundredths, rounded half up. Degrades to 0 when that maximum
      is missing or zero. For a zero maximum this is the intended fallback;
      the code as written divides by zero instead (see
      PointHeightPercentageAsWritten). */
  function PointHeightPercentage(value: int, canvasSeries: seq<Series>): (p: int)
    ensures GlobalMax(canvasSeries).None? ==> p == 0
    ensures GlobalMax(canvasSeries) == Some(0) ==> p == 0
    ensures GlobalMax(canvasSeries).Some? && GlobalMax(canvasSeries).value != 0 ==>
              IsRoundHalfUp(p, 100 * value, GlobalMax(canvasSeries).value)
  {
    match GlobalMax(canvasSeries)
    case None => 0
    case Some(g) => if g == 0 then 0 else RoundHalfUpDiv(100 * value, g)
  }

  /** A BigDecimal rounded to two places: a finite number of hundredths, or
      one of BigDecimal's special values. */
  datatype RoundedDecimal = Hundredths(count: int) | Infinity(negative: bool) | NotANumber

  /** The percentage as the code computes it. A missing maximum ends in the
      rescue and gives 0; a zero maximum does not raise, since BigDecimal
      division by zero yields an infinity (or NaN for 0/0), which rounding
      keeps. */
  function PointHeightPercentageAsWritten(value: int, canvasSeries: seq<Series>): (d: RoundedDecimal)
    ensures GlobalMax(canvasSeries).None? ==> d == Hundredths(0)
    ensures GlobalMax(canvasSeries) == Some(0) ==>
              d == if value == 0 then NotANumber else Infinity(value < 0)
    ensures GlobalMax(canvasSeries).Some? && GlobalMax(canvasSeries).value != 0 ==>
              d.Hundredths? && IsRoundHalfUp(d.count, 100 * value, GlobalMax(canvasSeries).value)
  {
    match GlobalMax(canvasSeries)
    case None => Hundredths(0)
    case Some(g) =>
      if g != 0 then Hundredths(RoundHalfUpDiv(100 * value, g))
      else if value == 0 then NotANumber
      else Infinity(value < 0)
  }

  /** The code as written and the intended fallback agree exactly when the
      canvas maximum is not zero. */
  lemma AsWrittenDiffersOnlyAtZeroMaximum(value: int, canvasSeries: seq<Series>)
    ensures PointHeightPercentageAsWritten(value, canvasSeries) == Hundredths(PointHeightPercentage(value, canvasSeries))
            <==> GlobalMax(canvasSeries) != Some(0)
  {
    match GlobalMax(canvasSeries)
    case None =>
    case Some(g) =>
      if g != 0 {
        RoundHalfUpUnique(PointHeightPercentageAsWritten(value, canvasSeries).count,
                          PointHeightPercentage(value, canvasSeries), 100 * value, g);
      }
  }

  /** A canvas whose only series runs from -5 to 0: the min label's height is
      minus infinity as written, and 0 as intended. */
  lemma ZeroMaximumCounterexample()
    ensures var all := [Series(Some(-5), Some(0), None)];
      && GlobalMax(all) == Some(0)
      && PointHeightPercentageAsWritten(-5, all) == Infinity(true)
      && PointHeightPercentage(-5, all) == 0
  {
    var all := [Series(Some(-5), Some(0), None)];
    assert GlobalMax(all) == Some(0);
  }

  /** The percentage's maximum itself is at 100%, whatever its sign. */
  lemma GlobalMaxIsFullHeight(canvasSeries: seq<Series>, g: int)
    requires GlobalMax(canvasSeries) == Some(g) && g != 0
    ensures PointHeightPercentage(g, canvasSeries) == 100
  {
    assert IsRoundHalfUp(100, 100 * g, g);
    RoundHalfUpUnique(PointHeightPercentage(g, canvasSeries), 100, 100 * g, g);
  }

  /** A value between 0 and a positive maximum lies between 0% and 100%. */
  lemma PercentageWithinBounds(value: int, canvasSeries: seq<Series>, g: int)
    requires GlobalMax(canvasSeries) == Some(g) && g > 0
    requires 0 <= value <= g
    ensures 0 <= PointHeightPercentage(value, canvasSeries) <= 100
  {
    var p := PointHeightPercentage(value, canvasSeries);
    if value != 0 {
      assert IsRoundHalfUp(p, 100 * value, g);
      MagnitudeOrder(Abs(p), 100, Abs(100 * value), g);
    }
  }

  /** A larger value is never drawn lower. */
  lemma PercentageMonotone(v: int, w: int, canvasSeries: seq<Series>, g: int)
    requires GlobalMax(canvasSeries) == Some(g) && g > 0
    requires v <= w
    ensures PointHeightPercentage(v, canvasSeries) <= PointHeightPercentage(w, canvasSeries)
  {
    var p, q := PointHeightPercentage(v, canvasSeries), PointHeightPercentage(w, canvasSeries);
    assert IsRoundHalfUp(p, 100 * v, g) && IsRoundHalfUp(q, 100 * w, g);
    if 0 <= v {
      MagnitudeOrder(Abs(p), Abs(q), Abs(100 * w), g);
    } else if w <= 0 {
      MagnitudeOrder(Abs(q), Abs(p), Abs(100 * v), g);
    }
  }

  /** The vertical position of a height given in hundredths of the plot
      height: the exact decimal percentage/100 * plotHeight. */
  function YPosition(percentage: int, plotHeight: int): real
  {
    (percentage * plotHeight) as real / 100.0
  }

  lemma YPositionWithinPlot(percentage: int, plotHeight: int)
    requires 0 <= percentage <= 100 && plotHeight >= 0
    ensures 0.0 <= YPosition(percentage, plotHeight) <= plotHeight as real
    ensures percentage == 100 ==> YPosition(percentage, plotHeight) == plotHeight as real
  {
    MulMonotone(plotHeight, 0, percentage);
    MulMonotone(plotHeight, percentage, 100);
  }

  /** A y-axis label: right-aligned and bottom-aligned in a 12 by 5 box just
      left of the y axis. */
  function YLabelBox(text: string, y: real): Command
  {
    TextBox(text, -14, y, 12, 5, VBottom, HRight, ShrinkToFit)
  }

  /** Width of each x-axis label slot when `count` labels share the plot width. */
  function XLabelWidth(plotWidth: int, count: int): (w: int)
    requires count > 0
    ensures count * (w + 1) <= plotWidth < count * (w + 2)
  {
    FloorDivBounds(plotWidth, count);
    plotWidth / count - 1
  }

  /** The x-axis labels, left to right: label i in the slot starting at i*w + 1. */
  function XLabelBoxes(labels: seq<string>, plotWidth: int): (boxes: seq<Command>)
    ensures |boxes| == |labels|
  {
    if |labels| == 0 then []
    else
      var w := XLabelWidth(plotWidth, |labels|);
      seq(|labels|, i requires 0 <= i < |labels| =>
        TextBox(labels[i], i * w + 1, -2.0, w, 6, VCenter, HCenter, ShrinkToFit))
  }

  /** The slots tile the plot width from x = 1: each label keeps its text and
      the slot width, each slot ends where the next begins, and the last ends
      within the plot width. */
  lemma {:induction false} XLabelsTile(labels: seq<string>, plotWidth: int)
    requires |labels| > 0
    ensures var boxes, n, w := XLabelBoxes(labels, plotWidth), |labels|, XLabelWidth(plotWidth, |labels|);
      && boxes[0].x == 1
      && (forall i :: 0 <= i < n ==>
            boxes[i] == TextBox(labels[i], boxes[i].x, -2.0, w, 6, VCenter, HCenter, ShrinkToFit))
      && (forall i :: 0 <= i < n - 1 ==> boxes[i].x + boxes[i].width == boxes[i + 1].x)
      && boxes[n - 1].x + boxes[n - 1].width <= plotWidth
  {
    var boxes, n, w := XLabelBoxes(labels, plotWidth), |labels|, XLabelWidth(plotWidth, |labels|);
    forall i | 0 <= i < n - 1
      ensures boxes[i].x + boxes[i].width == boxes[i + 1].x
    {
      assert boxes[i].x + w == (i + 1) * w + 1;
    }
    FloorDivBounds(plotWidth, n);
    assert boxes[n - 1].x + w == n * (plotWidth / n) - n + 1;
  }

  /** With a nonnegative slot width no two labels overlap. */
  lemma {:induction false} XLabelsDisjoint(labels: seq<string>, plotWidth: int, i: int, j: int)
    requires 0 <= i < j < |labels|
    requires XLabelWidth(plotWidth, |labels|) >= 0
    ensures XLabelBoxes(labels, plotWidth)[i].x + XLabelBoxes(labels, plotWidth)[i].width
              <= XLabelBoxes(labels, plotWidth)[j].x
  {
    var w := XLabelWidth(plotWidth, |labels|);
    MulMonotone(w, i + 1, j);
  }

  datatype RenderError = RuntimeError(message: string)

  datatype Outcome = Pass | Fail(error: RenderError)

  /** Draws one series on a canvas. Every concrete chart type supplies its own
      chart body; this base renderer has none. */
  class SeriesRenderer {
    const series: Series
    const canvas: Canvas
    const prawn: Document
    const color: string
    const graphArea: Rect
    /** Fixed once at construction, never recomputed. */
    const plotAreaWidth: int
    const plotAreaHeight: int

    constructor (series: Series, canvas: Canvas, color: string := "000000")
      ensures this.series == series && this.canvas == canvas && this.color == color
      ensures prawn == canvas.prawn && graphArea == canvas.layout.graphArea
      ensures plotAreaWidth == PlotArea(graphArea).width && plotAreaHeight == PlotArea(graphArea).height
    {
      this.series := series;
      this.canvas := canvas;
      this.prawn := canvas.prawn;
      this.color := color;
      this.graphArea := canvas.layout.graphArea;
      this.plotAreaWidth := canvas.layout.graphArea.width - 25;
      this.plotAreaHeight := canvas.layout.graphArea.height - 20;
    }

    /** The only public operation; on the base renderer it always fails, and
        having no modifies clause it draws nothing. */
    method Render() returns (outcome: Outcome)
      ensures outcome.Fail? && outcome.error.message == "Subclass Me"
    {
      outcome := RenderChart();
    }

    method RenderChart() returns (outcome: Outcome)
      ensures outcome == Fail(RuntimeError("Subclass Me"))
    {
      outcome := Fail(RuntimeError("Subclass Me"));
    }

    /** What AddYAxisLabel draws for `value`: nothing for exactly zero,
        otherwise one label at the value's height. */
    function YLabelCommands(value: int, text: string): (cmds: seq<Command>)
      ensures |cmds| == if value == 0 then 0 else 1
    {
      if value == 0 then []
      else [YLabelBox(text, YPosition(PointHeightPercentage(value, canvas.series), plotAreaHeight))]
    }

    /** The axes RenderAxes strokes: colours, the two axes, the origin marker. */
    function AxisLines(): seq<Command>
    {
      var axes := canvas.theme.axes;
      [StrokeColor(axes), FillColor(axes), HorizontalLine(0, plotAreaWidth, 0),
       VerticalLine(0, plotAreaHeight, 0), FilledEllipse(0, 0, 1)]
    }

    /** The y-axis labels RenderAxes draws, for max, min, avg and mid in turn. */
    function YAxisLabels(text: string): seq<Command>
    {
      var st := StatisticsOf(series);
      YLabelCommands(st.max, text) + YLabelCommands(st.min, text)
      + YLabelCommands(st.avg, text) + YLabelCommands(st.mid, text)
    }

    /** What RenderAxes draws. */
    function AxesCommands(text: string): seq<Command>
    {
      AxisLines() + YAxisLabels(text) + XLabelBoxes(canvas.xaxisLabels, plotAreaWidth)
    }

    /** `text` is what every y-axis label prints; the renderer prints the same
        text for all four statistics. */
    method RenderAxes(text: string)
      modifies prawn
      ensures prawn.log == old(prawn.log) + AxesCommands(text)
      ensures prawn.strokeColor == canvas.theme.axes && prawn.fillColor == canvas.theme.axes
    {
      ghost var log0 := prawn.log;
      var axes := canvas.theme.axes;
      prawn.SetStrokeColor(axes);
      prawn.SetFillColor(axes);
      prawn.StrokeHorizontalLine(0, plotAreaWidth, 0);
      prawn.StrokeVerticalLine(0, plotAreaHeight, 0);
      prawn.FillAndStrokeEllipse(0, 0, 1);
      ghost var base := log0 + AxisLines();
      assert prawn.log == base;

      var max := OrZero(series.max);
      var min := OrZero(series.min);
      var avg := OrZero(series.avg);
      var mid := (min + max) / 2;
      assert AxisStatistics(max, min, avg, mid) == StatisticsOf(series);

      AddYAxisLabel(max, text);
      ghost var ylabels := YLabelCommands(max, text);
      AddYAxisLabel(min, text);
      AppendAssociates(base, ylabels, YLabelCommands(min, text));
      ylabels := ylabels + YLabelCommands(min, text);
      AddYAxisLabel(avg, text);
      AppendAssociates(base, ylabels, YLabelCommands(avg, text));
      ylabels := ylabels + YLabelCommands(avg, text);
      AddYAxisLabel(mid, text);
      AppendAssociates(base, ylabels, YLabelCommands(mid, text));
      ylabels := ylabels + YLabelCommands(mid, text);
      assert ylabels == YAxisLabels(text);

      AddXAxisLabels();
      AppendAssociates(log0, AxisLines(), ylabels);
      AppendAssociates(log0, AxisLines() + ylabels, XLabelBoxes(canvas.xaxisLabels, plotAreaWidth));
    }

    method AddXAxisLabels()
      modifies prawn`log
      ensures prawn.log == old(prawn.log) + XLabelBoxes(canvas.xaxisLabels, plotAreaWidth)
    {
      var labels := canvas.xaxisLabels;
      if |labels| == 0 {
        return;
      }
      var widthOfEachLabel := plotAreaWidth / |labels| - 1;
      for i := 0 to |labels|
        invariant prawn.log == old(prawn.log) + XLabelBoxes(labels, plotAreaWidth)[..i]
      {
        var offset := i + 1;
        var position := ((offset * widthOfEachLabel) - widthOfEachLabel) + 1;
        assert position == i * widthOfEachLabel + 1;
        prawn.DrawTextBox(labels[i], position, -2.0, widthOfEachLabel, 6, VCenter, HCenter);
      }
    }

    method AddYAxisLabel(value: int, text: string)
      modifies prawn`log
      ensures prawn.log == old(prawn.log) + YLabelCommands(value, text)
    {
      if value != 0 {
        var y := YPosition(PointHeightPercentage(value, canvas.series), plotAreaHeight);
        prawn.DrawTextBox(text, -14, y, 12, 5, VBottom, HRight);
      }
    }
  }

  lemma AppendAssociates(a: seq<Command>, b: seq<Command>, c: seq<Command>)
    ensures (a + b) + c == a + (b + c)
  {
  }

  /** Every command is a y-axis label printing `text`. */
  ghost predicate AllYLabels(cmds: seq<Command>, text: string)
  {
    forall k :: 0 <= k < |cmds| ==> cmds[k].TextBox? && cmds[k].x == -14 && cmds[k].text == text
  }

  /** The y-axis labels of RenderAxes: one per nonzero statistic, each
      printing `text` just left of the y axis. */
  lemma YAxisLabelsOfStatistics(r: SeriesRenderer, text: string)
    ensures var st := StatisticsOf(r.series);
      && |r.YAxisLabels(text)| == NonzeroCount([st.max, st.min, st.avg, st.mid])
      && AllYLabels(r.YAxisLabels(text), text)
  {
    var st := StatisticsOf(r.series);
    var y1, y2 := r.YLabelCommands(st.max, text), r.YLabelCommands(st.min, text);
    var y3, y4 := r.YLabelCommands(st.avg, text), r.YLabelCommands(st.mid, text);
    assert [st.mid][1..] == [];
    assert NonzeroCount([st.mid]) == |y4|;
    assert [st.avg, st.mid][1..] == [st.mid];
    assert NonzeroCount([st.avg, st.mid]) == |y3| + |y4|;
    assert [st.min, st.avg, st.mid][1..] == [st.avg, st.mid];
    assert NonzeroCount([st.min, st.avg, st.mid]) == |y2| + |y3| + |y4|;
    assert [st.max, st.min, st.avg, st.mid][1..] == [st.min, st.avg, st.mid];
    assert AllYLabels(y1 + y2 + y3 + y4, text);
  }

  lemma ConcatenationParts(a: seq<Command>, b: seq<Command>, c: seq<Command>)
    ensures (a + b + c)[..|a|] == a
    ensures (a + b + c)[|a|..|a| + |b|] == b
    ensures (a + b + c)[|a| + |b|..] == c
  {
  }

  /** The command sequence of RenderAxes: five fixed commands, then one
      y-axis label per nonzero statistic, then exactly the x-axis labels. */
  lemma AxesCommandsShape(r: SeriesRenderer, text: string)
    ensures var cmds, st := r.AxesCommands(text), StatisticsOf(r.series);
      var ys := NonzeroCount([st.max, st.min, st.avg, st.mid]);
      && |cmds| == 5 + ys + |r.canvas.xaxisLabels|
      && cmds[0] == StrokeColor(r.canvas.theme.axes) && cmds[1] == FillColor(r.canvas.theme.axes)
      && cmds[2] == HorizontalLine(0, r.plotAreaWidth, 0)
      && cmds[3] == VerticalLine(0, r.plotAreaHeight, 0)
      && cmds[4] == FilledEllipse(0, 0, 1)
      && AllYLabels(cmds[5..5 + ys], text)
      && cmds[5 + ys..] == XLabelBoxes(r.canvas.xaxisLabels, r.plotAreaWidth)
  {
    YAxisLabelsOfStatistics(r, text);
    ConcatenationParts(r.AxisLines(), r.YAxisLabels(text), XLabelBoxes(r.canvas.xaxisLabels, r.plotAreaWidth));
  }

  function NonzeroCount(values: seq<int>): nat
  {
    if values == [] then 0 else (if values[0] == 0 then 0 else 1) + NonzeroCount(values[1..])
  }

  /** The label of a series holding the canvas-wide maximum sits at the top of
      the plot area. */
  lemma MaxLabelAtTop(r: SeriesRenderer, text: string, g: int)
    requires GlobalMax(r.canvas.series) == Some(g) && g != 0
    requires r.series.max == Some(g)
    ensures r.YLabelCommands(StatisticsOf(r.series).max, text) == [YLabelBox(text, r.plotAreaHeight as real)]
  {
    GlobalMaxIsFullHeight(r.canvas.series, g);
  }

  /** A statistic between 0 and a positive canvas-wide maximum is labelled
      within the plot height. */
  lemma YLabelWithinPlot(r: SeriesRenderer, value: int, text: string, g: int)
    requires GlobalMax(r.canvas.series) == Some(g) && g > 0
    requires 0 < value <= g && r.plotAreaHeight >= 0
    ensures 0.0 <= r.YLabelCommands(value, text)[0].y <= r.plotAreaHeight as real
  {
    PercentageWithinBounds(value, r.canvas.series, g);
    YPositionWithinPlot(PointHeightPercentage(value, r.canvas.series), r.plotAreaHeight);
  }
}
