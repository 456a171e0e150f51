/** The collaborators a series renderer reads: the series it plots and the
    canvas it shares with the other series of the chart. Their internals
    (how a series computes its statistics, how the layout places the graph
    area) belong to other parts of the system; here they are given values. */
module Charts {
  import opened Drawing

  datatype Option<T> = None | Some(value: T)

  /** A series' aggregate statistics; each is absent (nil) for an empty series. */
  datatype Series = Series(min: Option<int>, max: Option<int>, avg: Option<int>)

  datatype Rect = Rect(width: int, height: int)

  datatype Theme = Theme(axes: string)

  datatype Layout = Layout(graphArea: Rect)

  /** The canvas owns the document all its series are drawn on. */
  datatype Canvas = Canvas(prawn: Document, theme: Theme, layout: Layout,
                           series: seq<Series>, xaxisLabels: seq<string>)

  /** Ruby's `x || 0` on a possibly nil statistic. */
  function OrZero(x: Option<int>): int
  {
    match x
    case Some(v) => v
    case None => 0
  }

  /** The largest `max` over every series on the canvas. Absent when there is
      no series (the maximum of an empty list is nil) or when some series has
      no maximum (nil cannot be compared with a number, or is itself the
      maximum of a one-element list). */
  function GlobalMax(all: seq<Series>): (g: Option<int>)
    ensures g.Some? <==> |all| > 0 && forall i :: 0 <= i < |all| ==> all[i].max.Some?
    ensures g.Some? ==> forall i :: 0 <= i < |all| ==> all[i].max.value <= g.value
    ensures g.Some? ==> exists i :: 0 <= i < |all| && all[i].max == g
    decreases |all|
  {
    if |all| == 0 then None
    else if |all| == 1 then all[0].max
    else
      match (all[0].max, GlobalMax(all[1..]))
      case (Some(x), Some(y)) =>
        assert forall i :: 1 <= i < |all| ==> all[i] == all[1..][i - 1];
        Some(if x >= y then x else y)
      case _ =>
        assert forall i :: 1 <= i < |all| ==> all[i] == all[1..][i - 1];
        None
  }
}
