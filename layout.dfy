/** The geometry of `drawRectangle` and `drawDimensions` in script.js: how
    the solved rectangle is scaled into the canvas and where its two
    dimension labels and two dashed guide lines go. Nothing is drawn; the
    functions return the coordinates the canvas calls receive. */
module Layout {

  import opened Numbers

  /** The margin kept free on every side of the canvas. */
  const Padding: real := 40.0

  /** Offsets of the marks from the rectangle's bottom and right edges. */
  const LengthLabelGap: real := 25.0
  const WidthLabelGap: real := 20.0
  const LengthGuideGap: real := 15.0
  const WidthGuideGap: real := 10.0

  datatype Point = Point(x: real, y: real)

  /** A dashed guide line from `start` to `end`. */
  datatype Segment = Segment(start: Point, end: Point)

  /** A dimension label: the side length it shows, the point it is anchored
      at (centred on it), and whether it is rotated a quarter turn
      counter-clockwise so that it reads bottom to top. */
  datatype Label = Label(anchor: Point, value: real, rotated: bool)

  /** The scaled rectangle: uniform scale, top-left corner, and the drawn
      extent of the length (horizontal) and width (vertical) sides. Both
      the filled rectangle and its border are drawn at these coordinates. */
  datatype Placement = Placement(scale: real, x: real, y: real, rectLength: real, rectWidth: real)

  /** The dimension marks around the rectangle. */
  datatype Marks = Marks(lengthLabel: Label, widthLabel: Label, lengthGuide: Segment, widthGuide: Segment)

  /** Everything one call of `drawRectangle` puts on the canvas. */
  datatype Drawing = Drawing(placement: Placement, marks: Marks)

  function AvailableWidth(canvasWidth: real, padding: real): real
  {
    canvasWidth - 2.0 * padding
  }

  function AvailableHeight(canvasHeight: real, padding: real): real
  {
    canvasHeight - 2.0 * padding
  }

  /** The canvas leaves some room inside its padding on both axes. */
  predicate HasRoom(canvasWidth: real, canvasHeight: real, padding: real)
  {
    AvailableWidth(canvasWidth, padding) > 0.0 && AvailableHeight(canvasHeight, padding) > 0.0
  }

  /** The scaling part of `drawRectangle`: one scale factor for both axes,
      the smaller of the two that would fill the available width or height,
      and the scaled rectangle centred on the canvas. When the canvas has
      room, the rectangle fits inside the available area, touches it on at
      least one axis, and keeps the proportions of the real rectangle. */
  function FitRectangle(length: real, width: real, canvasWidth: real, canvasHeight: real, padding: real): (p: Placement)
    requires length > 0.0 && width > 0.0
    ensures p.x + p.rectLength / 2.0 == canvasWidth / 2.0
    ensures p.y + p.rectWidth / 2.0 == canvasHeight / 2.0
    ensures p.rectLength == length * p.scale && p.rectWidth == width * p.scale
    ensures p.rectLength * width == p.rectWidth * length
    ensures HasRoom(canvasWidth, canvasHeight, padding) ==>
              && p.scale > 0.0
              && p.rectLength <= AvailableWidth(canvasWidth, padding)
              && p.rectWidth <= AvailableHeight(canvasHeight, padding)
              && (p.rectLength == AvailableWidth(canvasWidth, padding) ||
                  p.rectWidth == AvailableHeight(canvasHeight, padding))
              && p.rectLength / p.rectWidth == length / width
  {
    var availableWidth := AvailableWidth(canvasWidth, padding);
    var availableHeight := AvailableHeight(canvasHeight, padding);
    var scaleX := availableWidth / length;
    var scaleY := availableHeight / width;
    var scale := Min(scaleX, scaleY);
    var rectLength := length * scale;
    var rectWidth := width * scale;
    FitsAtMinScale(length, availableWidth, scaleX, scale);
    FitsAtMinScale(width, availableHeight, scaleY, scale);
    AspectKept(length, width, scale);
    Placement(scale, (canvasWidth - rectLength) / 2.0, (canvasHeight - rectWidth) / 2.0, rectLength, rectWidth)
  }

  /** Scaling a side by at most the factor that fills the room keeps it
      inside the room, and by exactly that factor fills it. */
  lemma FitsAtMinScale(side: real, room: real, fill: real, scale: real)
    requires side > 0.0 && fill == room / side && scale <= fill
    ensures side * scale <= room
    ensures scale == fill ==> side * scale == room
  {
    assert side * fill == room;
    assert side * scale <= side * fill;
  }

  /** A uniform scale keeps the ratio of the sides. */
  lemma AspectKept(length: real, width: real, scale: real)
    requires length > 0.0 && width > 0.0
    ensures (length * scale) * width == (width * scale) * length
    ensures scale > 0.0 ==> (length * scale) / (width * scale) == length / width
  {
    if scale > 0.0 {
      assert (length * scale) / (width * scale) == (length / width) * (scale / scale);
    }
  }

  /** The scale is the largest one at which the rectangle fits: any factor
      that keeps both scaled sides inside the available area is at most it. */
  lemma ScaleIsLargestThatFits(length: real, width: real, canvasWidth: real, canvasHeight: real, padding: real, s: real)
    requires length > 0.0 && width > 0.0
    requires length * s <= AvailableWidth(canvasWidth, padding)
    requires width * s <= AvailableHeight(canvasHeight, padding)
    ensures s <= FitRectangle(length, width, canvasWidth, canvasHeight, padding).scale
  {
    BoundedFactor(length, s, AvailableWidth(canvasWidth, padding));
    BoundedFactor(width, s, AvailableHeight(canvasHeight, padding));
  }

  /** If `side * s` is at most `room`, then `s` is at most `room / side`. */
  lemma BoundedFactor(side: real, s: real, room: real)
    requires side > 0.0 && side * s <= room
    ensures s <= room / side
  {
    assert s == (side * s) / side;
  }

  /** With room on the canvas the scaled rectangle lies inside the padding
      on all four sides. */
  lemma FitStaysInsidePadding(length: real, width: real, canvasWidth: real, canvasHeight: real, padding: real)
    requires length > 0.0 && width > 0.0
    ensures var p := FitRectangle(length, width, canvasWidth, canvasHeight, padding);
            HasRoom(canvasWidth, canvasHeight, padding) ==>
            && padding <= p.x && p.x + p.rectLength <= canvasWidth - padding
            && padding <= p.y && p.y + p.rectWidth <= canvasHeight - padding
  {
    var p := FitRectangle(length, width, canvasWidth, canvasHeight, padding);
    assert p.x == canvasWidth / 2.0 - p.rectLength / 2.0;
    assert p.y == canvasHeight / 2.0 - p.rectWidth / 2.0;
  }

  /** The geometry of `drawDimensions`. The length label is centred under
      the length guide, which runs exactly along the bottom edge, below it;
      the width label is centred beside the width guide, which runs exactly
      along the right edge, to its right. The labels show the real side
      lengths, not the scaled ones. */
  function DimensionMarks(p: Placement, actualLength: real, actualWidth: real): (m: Marks)
    ensures m.lengthGuide.start.y == m.lengthGuide.end.y
    ensures m.lengthGuide.start.x == p.x && m.lengthGuide.end.x - m.lengthGuide.start.x == p.rectLength
    ensures m.lengthGuide.start.y - (p.y + p.rectWidth) == LengthGuideGap
    ensures m.widthGuide.start.x == m.widthGuide.end.x
    ensures m.widthGuide.start.y == p.y && m.widthGuide.end.y - m.widthGuide.start.y == p.rectWidth
    ensures m.widthGuide.start.x - (p.x + p.rectLength) == WidthGuideGap
    ensures m.lengthLabel.anchor.x == (m.lengthGuide.start.x + m.lengthGuide.end.x) / 2.0
    ensures m.lengthLabel.anchor.y - m.lengthGuide.start.y == LengthLabelGap - LengthGuideGap
    ensures m.widthLabel.anchor.y == (m.widthGuide.start.y + m.widthGuide.end.y) / 2.0
    ensures m.widthLabel.anchor.x - m.widthGuide.start.x == WidthLabelGap - WidthGuideGap
    ensures m.lengthLabel.value == actualLength && !m.lengthLabel.rotated
    ensures m.widthLabel.value == actualWidth && m.widthLabel.rotated
  {
    var right := p.x + p.rectLength;
    var bottom := p.y + p.rectWidth;
    Marks(
      Label(Point(p.x + p.rectLength / 2.0, bottom + LengthLabelGap), actualLength, false),
      Label(Point(right + WidthLabelGap, p.y + p.rectWidth / 2.0), actualWidth, true),
      Segment(Point(p.x, bottom + LengthGuideGap), Point(right, bottom + LengthGuideGap)),
      Segment(Point(right + WidthGuideGap, p.y), Point(right + WidthGuideGap, bottom)))
  }

  predicate OnCanvas(q: Point, canvasWidth: real, canvasHeight: real)
  {
    0.0 <= q.x <= canvasWidth && 0.0 <= q.y <= canvasHeight
  }

  /** `drawRectangle` with its fixed padding, followed by `drawDimensions`.
      The rectangle is centred and keeps its proportions; the labels show
      the real length and width. With room inside the 40-unit padding the
      rectangle fits the available area, touches it on at least one axis,
      stays inside the padding on all four sides, and every guide end
      point and label anchor lands on the canvas. */
  function DrawRectangle(length: real, width: real, canvasWidth: real, canvasHeight: real): (d: Drawing)
    requires length > 0.0 && width > 0.0
    ensures d.placement.x + d.placement.rectLength / 2.0 == canvasWidth / 2.0
    ensures d.placement.y + d.placement.rectWidth / 2.0 == canvasHeight / 2.0
    ensures d.placement.rectLength * width == d.placement.rectWidth * length
    ensures d.marks.lengthLabel.value == length && d.marks.widthLabel.value == width
    ensures HasRoom(canvasWidth, canvasHeight, Padding) ==>
              var p := d.placement;
              && p.scale > 0.0
              && (p.rectLength == AvailableWidth(canvasWidth, Padding) ||
                  p.rectWidth == AvailableHeight(canvasHeight, Padding))
              && Padding <= p.x && p.x + p.rectLength <= canvasWidth - Padding
              && Padding <= p.y && p.y + p.rectWidth <= canvasHeight - Padding
              && OnCanvas(d.marks.lengthLabel.anchor, canvasWidth, canvasHeight)
              && OnCanvas(d.marks.widthLabel.anchor, canvasWidth, canvasHeight)
              && OnCanvas(d.marks.lengthGuide.start, canvasWidth, canvasHeight)
              && OnCanvas(d.marks.lengthGuide.end, canvasWidth, canvasHeight)
              && OnCanvas(d.marks.widthGuide.start, canvasWidth, canvasHeight)
              && OnCanvas(d.marks.widthGuide.end, canvasWidth, canvasHeight)
  {
    var placement := FitRectangle(length, width, canvasWidth, canvasHeight, Padding);
    FitStaysInsidePadding(length, width, canvasWidth, canvasHeight, Padding);
    Drawing(placement, DimensionMarks(placement, length, width))
  }
}
