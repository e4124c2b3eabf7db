/** `calculateRectangle` in script.js: validate the two parsed inputs,
    solve for the sides, and either report one error or show the two
    dimensions and draw the rectangle. */
module Calculator {

  import opened Numbers
  import opened Solver
  import opened Layout

  /** What a successful calculation shows: the two dimensions as text and
      the drawing on the canvas. */
  datatype Shown = Shown(dimensions: Dimensions, drawing: Drawing)

  /** What one calculation ends in: one error, whose page text is
      `Message(error)`; a solved rectangle that is shown and drawn; or two
      sides that JavaScript computes as NaN, which the page then shows. */
  datatype Outcome = Failed(error: Error) | Solved(shown: Shown) | NaNSides

  /** The square root that `Math.sqrt` supplies is `root` whenever the
      solver will take one: for finite inputs with a non-negative discriminant. */
  predicate RootSupplied(perimeter: Num, area: Num, root: real)
  {
    perimeter.Finite? && area.Finite? && Discriminant(perimeter.value, area.value) >= 0.0 ==>
      IsSqrt(root, Discriminant(perimeter.value, area.value))
  }

  /** `calculateDimensions` on finite positive inputs, followed on success
      by `displayResults` and `drawRectangle`. */
  function SolveAndDraw(perimeter: real, area: real, root: real, canvasWidth: real, canvasHeight: real): (r: Outcome)
    requires perimeter > 0.0 && area > 0.0
    requires Discriminant(perimeter, area) >= 0.0 ==> IsSqrt(root, Discriminant(perimeter, area))
    ensures r == Failed(NoRealSolution) <==> Discriminant(perimeter, area) < 0.0
    ensures r.Failed? || r.Solved?
    ensures r.Solved? ==>
              var d := r.shown.dimensions;
              && d.length >= d.width > 0.0
              && 2.0 * (d.length + d.width) == perimeter
              && d.length * d.width == area
              && r.shown.drawing == DrawRectangle(d.length, d.width, canvasWidth, canvasHeight)
  {
    match CalculateDimensions(perimeter, area, root)
    case Err(e) => Failed(e)
    case Ok(d) =>
      SidesPositive(perimeter, area, root);
      Solved(Shown(d, DrawRectangle(d.length, d.width, canvasWidth, canvasHeight)))
  }

  /** `calculateRectangle` as written. Validation tests NaN first and the
      sign second; an infinite input is not NaN, so +Infinity passes it.
      With a finite perimeter and an infinite area the discriminant is
      -Infinity, so the no-solution error follows. With an infinite
      perimeter, half the perimeter is Infinity, the discriminant is
      Infinity or NaN, and the smaller root is NaN (Infinity - Infinity, or
      NaN throughout), so both sides come out NaN. Otherwise both inputs are
      finite and positive and are solved and drawn. */
  function CalculateRectangle(perimeter: Num, area: Num, root: real, canvasWidth: real, canvasHeight: real): (r: Outcome)
    requires RootSupplied(perimeter, area, root)
    ensures r == Failed(InvalidNumber) <==> perimeter == NaN || area == NaN
    ensures r == Failed(NonPositive) <==>
              perimeter != NaN && area != NaN && (AtMostZero(perimeter) || AtMostZero(area))
    ensures r == Failed(NoRealSolution) <==>
              ValidateAsWritten(perimeter, area) == Pass && perimeter.Finite? &&
              (area == PosInf || (area.Finite? && Discriminant(perimeter.value, area.value) < 0.0))
    ensures r == NaNSides <==> ValidateAsWritten(perimeter, area) == Pass && perimeter == PosInf
    ensures r.Solved? ==>
              var d := r.shown.dimensions;
              && perimeter.Finite? && area.Finite?
              && d.length >= d.width > 0.0
              && 2.0 * (d.length + d.width) == perimeter.value
              && d.length * d.width == area.value
              && r.shown.drawing == DrawRectangle(d.length, d.width, canvasWidth, canvasHeight)
  {
    match ValidateAsWritten(perimeter, area)
    case Fail(e) => Failed(e)
    case Pass =>
      if perimeter == PosInf then NaNSides
      else if area == PosInf then Failed(NoRealSolution)
      else SolveAndDraw(perimeter.value, area.value, root, canvasWidth, canvasHeight)
  }

  /** `calculateRectangle` with the intended validation: an input that is
      not a finite number is an invalid number, so the sides are never NaN. */
  function CalculateRectangleIntended(perimeter: Num, area: Num, root: real, canvasWidth: real, canvasHeight: real): (r: Outcome)
    requires RootSupplied(perimeter, area, root)
    ensures r == Failed(InvalidNumber) <==> !perimeter.Finite? || !area.Finite?
    ensures r == Failed(NonPositive) <==>
              perimeter.Finite? && area.Finite? && (perimeter.value <= 0.0 || area.value <= 0.0)
    ensures r == Failed(NoRealSolution) <==>
              perimeter.Finite? && area.Finite? && perimeter.value > 0.0 && area.value > 0.0 &&
              Discriminant(perimeter.value, area.value) < 0.0
    ensures r != NaNSides
    ensures r.Solved? ==>
              var d := r.shown.dimensions;
              && perimeter.Finite? && area.Finite?
              && d.length >= d.width > 0.0
              && 2.0 * (d.length + d.width) == perimeter.value
              && d.length * d.width == area.value
  {
    match Validate(perimeter, area)
    case Err(e) => Failed(e)
    case Ok(inputs) => SolveAndDraw(inputs.perimeter, inputs.area, root, canvasWidth, canvasHeight)
  }

  /** Away from the infinities the calculator as written and as intended
      end the same way. */
  lemma FlowsAgreeWithoutInfinities(perimeter: Num, area: Num, root: real, canvasWidth: real, canvasHeight: real)
    requires perimeter != PosInf && perimeter != NegInf
    requires area != PosInf && area != NegInf
    requires RootSupplied(perimeter, area, root)
    ensures CalculateRectangle(perimeter, area, root, canvasWidth, canvasHeight) ==
            CalculateRectangleIntended(perimeter, area, root, canvasWidth, canvasHeight)
  {
    ValidateAgreesWithoutInfinities(perimeter, area);
  }

  /** The input that shows the gap: a +Infinity perimeter with a positive
      area passes validation as written and ends in NaN sides, where the
      intended calculator reports an invalid number. */
  lemma InfinitePerimeterShowsNaN(area: real, root: real, canvasWidth: real, canvasHeight: real)
    requires area > 0.0
    ensures CalculateRectangle(PosInf, Finite(area), root, canvasWidth, canvasHeight) == NaNSides
    ensures CalculateRectangleIntended(PosInf, Finite(area), root, canvasWidth, canvasHeight) == Failed(InvalidNumber)
  {
  }

  /** The solver is never consulted when validation fails: the result is the
      validation error, whatever square root or canvas is supplied. */
  lemma ValidationPrecedesSolver(perimeter: Num, area: Num, root1: real, root2: real,
                                 w1: real, h1: real, w2: real, h2: real)
    requires RootSupplied(perimeter, area, root1) && RootSupplied(perimeter, area, root2)
    requires ValidateAsWritten(perimeter, area).Fail?
    ensures CalculateRectangle(perimeter, area, root1, w1, h1) == Failed(ValidateAsWritten(perimeter, area).error)
    ensures CalculateRectangle(perimeter, area, root1, w1, h1) ==
            CalculateRectangle(perimeter, area, root2, w2, h2)
  {
  }

  /** Round trip: from the perimeter and area of any rectangle with positive
      sides the calculator recovers that very rectangle, longer side first,
      and draws it. */
  lemma RecoversEveryRectangle(l: real, w: real, root: real, canvasWidth: real, canvasHeight: real)
    requires l >= w > 0.0
    requires RootSupplied(Finite(2.0 * (l + w)), Finite(l * w), root)
    ensures CalculateRectangle(Finite(2.0 * (l + w)), Finite(l * w), root, canvasWidth, canvasHeight) ==
            Solved(Shown(Dimensions(l, w), DrawRectangle(l, w, canvasWidth, canvasHeight)))
  {
    assert l * w > 0.0;
    SolutionIsUnique(2.0 * (l + w), l * w, root, l, w);
  }

  /** Perimeter 20 and area 16 give an 8 by 2 rectangle (the square root of
      the discriminant 36 is 6). */
  lemma EightByTwo(canvasWidth: real, canvasHeight: real)
    ensures CalculateRectangle(Finite(20.0), Finite(16.0), 6.0, canvasWidth, canvasHeight).Solved?
    ensures CalculateRectangle(Finite(20.0), Finite(16.0), 6.0, canvasWidth, canvasHeight).shown.dimensions ==
            Dimensions(8.0, 2.0)
  {
    RecoversEveryRectangle(8.0, 2.0, 6.0, canvasWidth, canvasHeight);
  }

  /** The error cases: an area too large for the perimeter, a negative
      perimeter, and a perimeter that is not a number. */
  lemma ErrorExamples(root: real, canvasWidth: real, canvasHeight: real)
    ensures CalculateRectangle(Finite(10.0), Finite(100.0), root, canvasWidth, canvasHeight) == Failed(NoRealSolution)
    ensures CalculateRectangle(Finite(-5.0), Finite(10.0), root, canvasWidth, canvasHeight) == Failed(NonPositive)
    ensures CalculateRectangle(NaN, Finite(10.0), root, canvasWidth, canvasHeight) == Failed(InvalidNumber)
    ensures CalculateRectangle(Finite(10.0), NaN, root, canvasWidth, canvasHeight) == Failed(InvalidNumber)
    ensures CalculateRectangle(NaN, Finite(-10.0), root, canvasWidth, canvasHeight) == Failed(InvalidNumber)
  {
  }

  /** The infinite inputs as written: -Infinity fails the sign test, a
      +Infinity area makes the discriminant -Infinity, and a +Infinity
      perimeter gives NaN sides; NaN still comes first. */
  lemma InfinityExamples(root: real, canvasWidth: real, canvasHeight: real)
    ensures CalculateRectangle(NegInf, Finite(10.0), root, canvasWidth, canvasHeight) == Failed(NonPositive)
    ensures CalculateRectangle(PosInf, Finite(-1.0), root, canvasWidth, canvasHeight) == Failed(NonPositive)
    ensures CalculateRectangle(Finite(10.0), PosInf, root, canvasWidth, canvasHeight) == Failed(NoRealSolution)
    ensures CalculateRectangle(PosInf, PosInf, root, canvasWidth, canvasHeight) == NaNSides
    ensures CalculateRectangle(PosInf, NaN, root, canvasWidth, canvasHeight) == Failed(InvalidNumber)
  {
  }

  /** The two examples the page logs to the console claim 7.5 by 2.5 for
      perimeter 20 and area 25, and 4.5 by 1.5 for perimeter 12 and area 9.
      Neither claimed pair has the stated area, so for every square root
      the calculator shows something else. */
  lemma ConsoleExamplesAreNotResults(root1: real, root2: real, canvasWidth: real, canvasHeight: real)
    requires RootSupplied(Finite(20.0), Finite(25.0), root1)
    requires RootSupplied(Finite(12.0), Finite(9.0), root2)
    ensures 7.5 * 2.5 != 25.0 && 4.5 * 1.5 != 9.0
    ensures var r := CalculateRectangle(Finite(20.0), Finite(25.0), root1, canvasWidth, canvasHeight);
            !(r.Solved? && r.shown.dimensions == Dimensions(7.5, 2.5))
    ensures var r := CalculateRectangle(Finite(12.0), Finite(9.0), root2, canvasWidth, canvasHeight);
            !(r.Solved? && r.shown.dimensions == Dimensions(4.5, 1.5))
  {
  }

  /** What the calculator does show for those two inputs: both lie on the
      boundary where the discriminant is zero, so both are squares, 5 by 5
      and 3 by 3; and likewise perimeter 16 and area 16 give a 4 by 4 square. */
  lemma ConsoleExamplesAreSquares(root: real, canvasWidth: real, canvasHeight: real)
    requires root == 0.0
    ensures CalculateRectangle(Finite(20.0), Finite(25.0), root, canvasWidth, canvasHeight) ==
            Solved(Shown(Dimensions(5.0, 5.0), DrawRectangle(5.0, 5.0, canvasWidth, canvasHeight)))
    ensures CalculateRectangle(Finite(12.0), Finite(9.0), root, canvasWidth, canvasHeight) ==
            Solved(Shown(Dimensions(3.0, 3.0), DrawRectangle(3.0, 3.0, canvasWidth, canvasHeight)))
    ensures CalculateRectangle(Finite(16.0), Finite(16.0), root, canvasWidth, canvasHeight) ==
            Solved(Shown(Dimensions(4.0, 4.0), DrawRectangle(4.0, 4.0, canvasWidth, canvasHeight)))
  {
    RecoversEveryRectangle(5.0, 5.0, root, canvasWidth, canvasHeight);
    RecoversEveryRectangle(3.0, 3.0, root, canvasWidth, canvasHeight);
    RecoversEveryRectangle(4.0, 4.0, root, canvasWidth, canvasHeight);
  }
}
