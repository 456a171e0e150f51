/** The drawing surface a series renderer writes to.

    The real surface is a Prawn document; here it is a log of the drawing
    commands issued against it, with their arguments, plus the current stroke
    and fill colours, which persist from one call to the next. */
module Drawing {

  datatype VerticalAlign = VCenter | VBottom

  datatype HorizontalAlign = HCenter | HRight

  /** Every text box in this model shrinks its text to fit the box. */
  datatype Overflow = ShrinkToFit

  datatype Command =
    | StrokeColor(color: string)
    | FillColor(color: string)
    | HorizontalLine(x1: int, x2: int, at: int)
    | VerticalLine(y1: int, y2: int, at: int)
    | FilledEllipse(cx: int, cy: int, radius: int)
    | TextBox(text: string, x: int, y: real, width: int, height: int,
              valign: VerticalAlign, align: HorizontalAlign, overflow: Overflow)

  class Document {
    var strokeColor: string
    var fillColor: string
    /** The drawing commands issued so far, oldest first. */
    var log: seq<Command>

    constructor ()
      ensures strokeColor == "000000" && fillColor == "000000" && log == []
    {
      strokeColor, fillColor, log := "000000", "000000", [];
    }

    method SetStrokeColor(color: string)
      modifies this
      ensures strokeColor == color && fillColor == old(fillColor)
      ensures log == old(log) + [StrokeColor(color)]
    {
      strokeColor := color;
      log := log + [StrokeColor(color)];
    }

    method SetFillColor(color: string)
      modifies this
      ensures fillColor == color && strokeColor == old(strokeColor)
      ensures log == old(log) + [FillColor(color)]
    {
      fillColor := color;
      log := log + [FillColor(color)];
    }

    method StrokeHorizontalLine(x1: int, x2: int, at: int)
      modifies this`log
      ensures log == old(log) + [HorizontalLine(x1, x2, at)]
    {
      log := log + [HorizontalLine(x1, x2, at)];
    }

    method StrokeVerticalLine(y1: int, y2: int, at: int)
      modifies this`log
      ensures log == old(log) + [VerticalLine(y1, y2, at)]
    {
      log := log + [VerticalLine(y1, y2, at)];
    }

    method FillAndStrokeEllipse(cx: int, cy: int, radius: int)
      modifies this`log
      ensures log == old(log) + [FilledEllipse(cx, cy, radius)]
    {
      log := log + [FilledEllipse(cx, cy, radius)];
    }

    method DrawTextBox(text: string, x: int, y: real, width: int, height: int,
                       valign: VerticalAlign, align: HorizontalAlign)
      modifies this`log
      ensures log == old(log) + [TextBox(text, x, y, width, height, valign, align, ShrinkToFit)]
    {
      log := log + [TextBox(text, x, y, width, height, valign, align, ShrinkToFit)];
    }
  }
}
