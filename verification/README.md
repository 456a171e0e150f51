# Series renderer of prawn-graph, modelled in Dafny

prawn-graph draws charts into Prawn PDF documents. Its `SeriesRenderer` draws one
data series onto a canvas that several series share. A renderer computes its
plot area once, when it is constructed. It draws the two axes and an origin
marker. It labels the y axis at the heights of the series' max, min, average
and midpoint. It tiles the canvas's category labels along the x axis. A height
is normalised against the largest maximum of all the series on the canvas,
rounded to hundredths with BigDecimal's half-up rounding, and falls back to 0
when that maximum is missing. When that maximum is zero the code divides by
zero and gets an infinity rather than the intended 0; the model records this
under "Findings" and the renderer uses the intended 0. Drawing the chart body is left to
concrete chart types; the base renderer's `render` always fails.

The model has four modules:

- `Drawing` (drawing.dfy) stands in for the Prawn document. The `Document`
  class keeps a log of drawing commands with their arguments, plus the current
  stroke and fill colours.
- `Charts` (charts.dfy) holds the renderer's collaborators as values: a
  series' statistics (each possibly nil), the canvas with its theme, graph area,
  series list and x-axis labels, and the canvas-wide maximum `GlobalMax`.
- `Rounding` (rounding.dfy) does BigDecimal half-up rounding on integer
  quotients. `IsRoundHalfUp` is an independent characterisation: nearest
  integer, with ties going away from zero. `RoundHalfUpDiv` computes it, and
  `RoundHalfUpUnique` shows the characterisation has only one solution.
- `SeriesRendering` (series_renderer.dfy) holds the placement arithmetic as
  functions and lemmas. It also holds the `SeriesRenderer` class. Its `const`
  fields are set once by the constructor, so the plot area cannot be
  recomputed. Its methods append to the canvas's document, and each `ensures`
  gives the new log as the old log followed by a specification function of the
  renderer.

A percentage is an integer number of hundredths (1.00 is 100). All series
values are integers. Ruby's Integer `/` rounds toward negative infinity.
Dafny's `/` is Euclidean. The two agree for the positive divisors used here
(the label count and 2).

## Model

| member | source | states |
|---|---|---|
| `SeriesRendering.SeriesRenderer.constructor` | lib/prawn/graph/chart_components/series_renderer.rb:12-25 | stores the series, the canvas, its document and the colour (default "000000"); plot width and height are the graph area's width and height less the 25 and 20 reserved for labels, and are constant fields, never recomputed |
| `SeriesRendering.PlotArea` | lib/prawn/graph/chart_components/series_renderer.rb:23-24 | adding the two reserved margins back to the plot area gives the graph area again |
| `SeriesRendering.SeriesRenderer.Render` | lib/prawn/graph/chart_components/series_renderer.rb:27-29 | always fails with the error "Subclass Me" (a plain RuntimeError in the source, not a dedicated not-implemented error); it has no modifies clause, so it draws nothing |
| `SeriesRendering.SeriesRenderer.RenderChart` | lib/prawn/graph/chart_components/series_renderer.rb:33-35 | the base class's chart body fails with a RuntimeError "Subclass Me" |
| `SeriesRendering.SeriesRenderer.RenderAxes` | lib/prawn/graph/chart_components/series_renderer.rb:37-55 | appends exactly `AxesCommands(text)` to the document's log; both current colours become the theme's axes colour |
| `SeriesRendering.AxesCommandsShape` | lib/prawn/graph/chart_components/series_renderer.rb:38-54 | `AxesCommands` is `AxisLines` (lines 38-42) then `YAxisLabels` (lines 49-52) then the x-axis labels (line 54); the axes commands are, in order: stroke and fill colour set to the axes colour, the horizontal axis 0..plot width at 0, the vertical axis 0..plot height at 0, the origin marker, one y-axis label printing the given text for each nonzero statistic among max, min, avg and mid, and then exactly the x-axis labels |
| `SeriesRendering.YAxisLabelsOfStatistics` | lib/prawn/graph/chart_components/series_renderer.rb:49-52 | the y-axis labels number exactly the nonzero statistics among max, min, avg and mid, and each prints the given text at x = −14 |
| `SeriesRendering.StatisticsOf` | lib/prawn/graph/chart_components/series_renderer.rb:44-47 | max, min and avg are the series' own, or 0 when nil (`Charts.OrZero`, the `|| 0` of lines 44-46); mid is (min+max)/2 rounded toward negative infinity, i.e. 2·mid ≤ min+max < 2·mid+2 |
| `SeriesRendering.SeriesRenderer.AddXAxisLabels` | lib/prawn/graph/chart_components/series_renderer.rb:57-67 | appends exactly `XLabelBoxes(labels, plot width)`; the loop computes each position as the source does, (offset·w − w) + 1, and the invariant ties it to the closed form i·w + 1 |
| `SeriesRendering.XLabelWidth` | lib/prawn/graph/chart_components/series_renderer.rb:59 | the slot width w of n labels is ⌊plot width / n⌋ − 1, characterised as n·(w+1) ≤ plot width < n·(w+2) |
| `SeriesRendering.XLabelBoxes` | lib/prawn/graph/chart_components/series_renderer.rb:58-65 | one text box per label, so none when there are no labels, whatever the plot width |
| `SeriesRendering.XLabelsTile` | lib/prawn/graph/chart_components/series_renderer.rb:59-65 | with n > 0 labels, box i prints label i at y = −2 with width w = ⌊plot width / n⌋ − 1, height 6, centred, shrink-to-fit; the first starts at x = 1; each slot ends where the next begins; the last ends at or before the plot width |
| `SeriesRendering.XLabelsDisjoint` | lib/prawn/graph/chart_components/series_renderer.rb:59-62 | when the slot width is nonnegative, an earlier label's slot ends at or before any later label's slot starts |
| `SeriesRendering.SeriesRenderer.AddYAxisLabel` | lib/prawn/graph/chart_components/series_renderer.rb:69-74 | appends exactly `YLabelCommands(value, text)` |
| `SeriesRendering.SeriesRenderer.YLabelCommands` | lib/prawn/graph/chart_components/series_renderer.rb:70-72 | nothing for a value of exactly 0, otherwise exactly one text box, `YLabelBox` (the `text_box` arguments of line 72: x = −14, width 12, height 5, bottom, right, shrink-to-fit) at y = `YPosition` (line 71: percentage/100 × plot height) |
| `SeriesRendering.YLabelWithinPlot` | lib/prawn/graph/chart_components/series_renderer.rb:71-72 | for a value in (0, G] with a positive canvas maximum G and a nonnegative plot height, the label's y lies between 0 and the plot height |
| `SeriesRendering.MaxLabelAtTop` | lib/prawn/graph/chart_components/series_renderer.rb:71-72 | a series whose max is the canvas maximum G ≠ 0 gets its max label at y = plot height, at x = −14 in a 12 × 5 box aligned bottom-right |
| `SeriesRendering.YPositionWithinPlot` | lib/prawn/graph/chart_components/series_renderer.rb:71 | a percentage in [0, 100] places y in [0, plot height], and 100 places it at the plot height |
| `Charts.GlobalMax` | lib/prawn/graph/chart_components/series_renderer.rb:80 | present exactly when there is at least one series and every series has a max; then it is one of the maxima and no series' max exceeds it |
| `SeriesRendering.PointHeightPercentage` | lib/prawn/graph/chart_components/series_renderer.rb:79-81 | 0 when the canvas maximum is missing; the intended 0 when it is zero (see Findings); otherwise value/G rounded half-up to hundredths |
| `SeriesRendering.PointHeightPercentageAsWritten` | lib/prawn/graph/chart_components/series_renderer.rb:80 | as the code computes it: 0 when the canvas maximum is missing; when it is zero, −Infinity or +Infinity by the sign of a nonzero value and NaN for 0; otherwise value/G rounded half-up to hundredths |
| `SeriesRendering.AsWrittenDiffersOnlyAtZeroMaximum` | lib/prawn/graph/chart_components/series_renderer.rb:80 | the code as written and the intended fallback give the same percentage exactly when the canvas maximum is not zero |
| `SeriesRendering.ZeroMaximumCounterexample` | lib/prawn/graph/chart_components/series_renderer.rb:80 | a canvas whose only series has min −5 and max 0: the min label's percentage is −Infinity as written and 0 as intended |
| `SeriesRendering.GlobalMaxIsFullHeight` | lib/prawn/graph/chart_components/series_renderer.rb:80 | the percentage of the canvas maximum itself is exactly 1.00 |
| `SeriesRendering.PercentageWithinBounds` | lib/prawn/graph/chart_components/series_renderer.rb:80 | with G > 0 and 0 ≤ v ≤ G, the percentage lies in [0.00, 1.00] |
| `SeriesRendering.PercentageMonotone` | lib/prawn/graph/chart_components/series_renderer.rb:80 | with G > 0, a larger value never gets a smaller percentage, whatever the signs |
| `Rounding.RoundHalfUpDiv` | lib/prawn/graph/chart_components/series_renderer.rb:80 | the result is num/den rounded to the nearest integer, a tie going away from zero (BigDecimal's ROUND_HALF_UP) |
| `Rounding.RoundHalfUpUnique` | lib/prawn/graph/chart_components/series_renderer.rb:80 | that rounding characterisation has at most one solution, so the rounded value is well defined |

## Findings

| source | as written | input that shows it | evidently intended | confidence | as-written member | corrected member |
|---|---|---|---|---|---|---|
| lib/prawn/graph/chart_components/series_renderer.rb:80 | a zero canvas maximum makes `BigDecimal(value)/BigDecimal(0)` an infinity (NaN for value 0) under BigDecimal's default exception mode. `round(2)` keeps it, so `rescue 0` never fires, and line 71 places the label at y = ±Infinity × plot height | a canvas whose only series has min −5 and max 0; the min label's percentage is −Infinity | degrade to 0 when the maximum is zero, as when it is missing | medium, not executed; it depends on BigDecimal's exception mode, and with EXCEPTION_ZERODIVIDE set the division raises and `rescue 0` does fire | `SeriesRendering.PointHeightPercentageAsWritten`, `SeriesRendering.ZeroMaximumCounterexample` | `SeriesRendering.PointHeightPercentage`, `SeriesRendering.AsWrittenDiffersOnlyAtZeroMaximum` |

## Left out

- Prawn's drawing is not modelled. Each call (`stroke_color=`, `fill_color=`, the line strokes, the ellipse, `text_box`) becomes one command recorded with its arguments. How shrink-to-fit lays out text is not modelled.
- `SeriesRendering.SeriesRenderer.constructor`: the two `is_a?` checks that raise ArgumentError are replaced by static types. A wrong argument cannot be passed, so the failure path does not exist in the model.
- Series values are integers. Float statistics and float graph-area sizes are not modelled: float division in the slot width, float `zero?`, BigDecimal conversion of floats. So is the precision argument 10 of `BigDecimal(value, 10)`. The quotient is exact in the model. BigDecimal's quotient has limited precision: it is exact, or rounded at its last computed digit. For ordinary magnitudes that digit lies far beyond the second decimal place, so the rounding to two places is unchanged.
- The `rescue 0` on mid (line 47) cannot fire on integers and is not modelled.
- Y-label text: line 72 interpolates `max`, but `max` is not a local variable of `add_y_axis_label`. It is a local of `render_axes`, and no method of that name appears in this file. What it prints is therefore left open. `RenderAxes` and `AddYAxisLabel` take the text as a parameter `text`, and all four labels print the same text, as the shape of the source implies. Nothing is stated about what that text is. The model assumes that `max` resolves to a method, somewhere in the renderer's class hierarchy, that returns the printed text. If no such method exists, line 72 raises NameError at the first nonzero statistic. `render_axes` then stops before the remaining y-axis labels and the x-axis labels. In the model, `RenderAxes` and `AddYAxisLabel` always complete.
- `SeriesRendering.PointHeightPercentage`: for a zero canvas maximum it returns the intended 0. The code returns ±Infinity, or NaN for a zero value, and line 71 then multiplies that by the plot height. `PointHeightPercentageAsWritten` models the code; the y-axis labels use the intended value. The y coordinate an infinite percentage would produce is not modelled.
- Series and canvas internals are given values: how a series computes min, max and avg; the theme; the layout; where the document comes from. So are the canvas options, as a plain sequence of labels; a missing `:xaxis_labels` option (which would raise on `nil.size`) is not modelled.
- Concrete chart types and their `render_chart` are not part of this model.
- The private `prawn` reader (lines 83-85) is the constant field `prawn`. The stored `color` is kept but not used by anything in this file.
