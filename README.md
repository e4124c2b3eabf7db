# Equivalent rectangle calculator: a Dafny model

The calculator in `script.js` takes a perimeter P and an area A, validates
them, and finds the rectangle with that perimeter and area. Its sides are
the two roots of `w^2 - (P/2) w + A = 0`. It then scales the rectangle
into a canvas. It labels the length (the longer side) below the shape and
the width to its right, and draws a dashed guide line along each.

This project models the arithmetic of that calculator as pure Dafny
functions over `real`, and proves what the calculator promises:

- validation happens in a fixed order, and validation errors come before
  the no-solution error;
- the solver returns exactly the rectangle with the given perimeter and
  area, longer side first, and fails only when no such rectangle exists;
- the scaled rectangle fits the padded canvas, is centred, keeps its
  proportions, and is scaled by the largest factor that fits;
- the labels and guide lines sit at fixed offsets from the rectangle's
  edges, and their anchors land on the canvas.

Modules, one per component:

- `Numbers` (numbers.dfy): `Num`, a JavaScript number as `parseFloat`
  returns it (`NaN`, `PosInf`, `NegInf` or `Finite(real)`), plus
  `Math.max` and `Math.min`.
- `Solver` (solver.dfy): `validateInputs` and `calculateDimensions`.
  This includes the three error texts verbatim in `Solver.Message`.
- `Layout` (layout.dfy): the numeric part of `drawRectangle` and
  `drawDimensions`. The padding (40) and the mark offsets (25, 20, 15
  and 10) are named constants.
- `Calculator` (calculator.dfy): the flow of `calculateRectangle`
  (validate, then solve, then either fail or show and draw), and the
  concrete examples.

`Math.sqrt` has no counterpart in Dafny. The flow and the solver therefore
take the square root of the discriminant as a parameter `root`. Whenever
both inputs are finite and the discriminant is not negative, the
precondition requires `root >= 0 && root * root == discriminant`. In every
other case `root` is neither used nor constrained.

`Calculator.CalculateRectangle` follows the code as written, infinite
inputs included. `validateInputs` only tests for NaN, so a +Infinity input
passes it. The outcome then depends on which input is infinite:

- An infinite area with a finite perimeter makes the discriminant
  -Infinity, so the page shows the no-solution error.
- An infinite perimeter makes both sides NaN. The model has a separate
  outcome for this, `NaNSides`.

`Calculator.CalculateRectangleIntended` is the same flow, except that
every input that is not a finite number is rejected as an invalid number.
The two flows are proved equal whenever neither input is infinite.

Some points where the code is taken literally:

- The sides are called `length` (the larger) and `width` (the smaller).
- The discriminant is compared with `< 0` exactly, with no tolerance.
- The console examples at script.js:207-208 are wrong. The console itself
  is not modelled (see Findings).

## Model

| member | source | states |
|---|---|---|
| `Numbers.Max` | script.js:95 | the result is at least both arguments and is one of them |
| `Numbers.Min` | script.js:96 | the result is at most both arguments and is one of them |
| `Solver.MessagesDiffer` | script.js:59-87 | the page texts `Message` gives for the three errors are pairwise different, so the page tells the errors apart |
| `Solver.ValidateAsWritten` | script.js:59-73 | the code as written: invalid-number error exactly when an input is NaN, whatever the other is; otherwise must-be-positive error exactly when an input is zero, negative or minus infinity; never the no-solution error |
| `Solver.Validate` | script.js:59-73 | the intended validation: invalid-number error exactly when an input is not finite, whatever the other is; otherwise must-be-positive error exactly when an input is at most 0; on success both values are positive and are the inputs' values |
| `Solver.ValidateAgreesWithoutInfinities` | script.js:62-70 | on every input pair without an infinity, the code as written and the intended validation give the same verdict |
| `Solver.AsWrittenAcceptsInfinitePerimeter` | script.js:62-70 | a +Infinity perimeter with a positive area passes the validation as written, but the intended validation rejects it as an invalid number |
| `Solver.CalculateDimensions` | script.js:75-98 | error exactly when `(P/2)^2 - 4A < 0`, and then only the no-solution error; on success length >= width, `2*(length+width) == P` and `length*width == A` |
| `Solver.SidesSolveQuadratic` | script.js:76-91 | each returned side is a root of `w^2 - (P/2) w + A = 0` |
| `Solver.SolutionIsUnique` | script.js:80-97 | any pair l >= w with perimeter P and area A is exactly the solver's result, so the solver is complete and its answer canonical |
| `Solver.NoRectangleWhenDiscriminantNegative` | script.js:80-87 | when the discriminant is negative, no pair of reals has perimeter P and area A, so the error is never a false alarm |
| `Solver.SidesPositive` | script.js:89-97 | with P > 0 and A > 0 both returned sides are positive; in particular the width that script.js:125 divides by is positive |
| `Solver.SquareIffDiscriminantZero` | script.js:89-97 | a zero discriminant gives the square with side P/4, and a result with equal sides only comes from a zero discriminant |
| `Layout.FitRectangle` | script.js:115-134 | both drawn sides are the real sides times one scale; the rectangle is centred on the canvas and keeps the side ratio; with room inside the padding the scale is positive, the rectangle fits the available width and height and fills at least one of them, so the scale itself is a fitting factor |
| `Layout.ScaleIsLargestThatFits` | script.js:121-126 | any factor at which both scaled sides fit the available area is at most the chosen scale; with the fit clauses of `FitRectangle`, the chosen scale is the largest fitting factor |
| `Layout.FitStaysInsidePadding` | script.js:121-134 | with room, all four edges of the scaled rectangle lie within the padding margin |
| `Layout.DimensionMarks` | script.js:149-180 | the length guide is horizontal, spans the bottom edge exactly and lies 15 below it; the width guide is vertical, spans the right edge exactly and lies 10 to its right; each label is centred on its guide, 10 further out, shows the real side length, and only the width label is rotated |
| `Layout.DrawRectangle` | script.js:108-180 | the drawn rectangle is centred, keeps the side ratio, and is labelled with the real length and width; with room inside the 40-unit padding it has a positive scale, fills the available area on at least one axis, stays inside the padding on all four sides, and every guide end point and label anchor lies on the canvas |
| `Calculator.SolveAndDraw` | script.js:47-56 | for positive inputs: the no-solution error exactly when the discriminant is negative; otherwise sides length >= width > 0 with the given perimeter and area, drawn by `DrawRectangle` |
| `Calculator.CalculateRectangle` | script.js:37-57 | the code as written: invalid-number error iff an input is NaN; else must-be-positive error iff an input is at most 0 or minus infinity; no-solution error iff validation passes with a finite perimeter and either a +Infinity area or a negative discriminant; NaN sides iff validation passes with a +Infinity perimeter; otherwise finite sides length >= width > 0 with the input perimeter and area, drawn by `DrawRectangle` |
| `Calculator.CalculateRectangleIntended` | script.js:37-57 | the same flow with the intended validation: invalid-number error iff an input is not finite; must-be-positive error iff both are finite and one is at most 0; no-solution error iff both are positive and the discriminant is negative; never NaN sides; otherwise the solved rectangle |
| `Calculator.FlowsAgreeWithoutInfinities` | script.js:37-57 | on every input pair without an infinity, the flow as written and the intended flow give the same outcome |
| `Calculator.InfinitePerimeterShowsNaN` | script.js:62-91 | a +Infinity perimeter with a positive area ends in NaN sides as written, and in the invalid-number error as intended |
| `Calculator.ValidationPrecedesSolver` | script.js:41-52 | when validation as written fails, the result is that validation error, the same for every square root and canvas |
| `Calculator.RecoversEveryRectangle` | script.js:37-57 | round trip: for any rectangle with sides l >= w > 0, the calculator given its perimeter and area shows l and w and draws them |
| `Calculator.EightByTwo` | script.js:75-97 | perimeter 20 and area 16 give length 8 and width 2 |
| `Calculator.ErrorExamples` | script.js:59-87 | (10, 100) has no solution; (-5, 10) is not positive; NaN in either input is an invalid number, even with a negative other input |
| `Calculator.InfinityExamples` | script.js:59-91 | as written: (-Infinity, 10) and (+Infinity, -1) are not positive; (10, +Infinity) has no solution; (+Infinity, +Infinity) gives NaN sides; (+Infinity, NaN) is an invalid number |
| `Calculator.ConsoleExamplesAreNotResults` | script.js:207-208 | the console's claimed results 7.5 by 2.5 and 4.5 by 1.5 do not have the areas 25 and 9, and the calculator never shows them for those inputs |
| `Calculator.ConsoleExamplesAreSquares` | script.js:207-208 | the console's inputs (20, 25) and (12, 9), and also (16, 16), give the squares 5 by 5, 3 by 3 and 4 by 4 |

## Left out

- DOM lookups, event wiring, the Enter key and showing or hiding the
  result and error sections (script.js:2-35, 100-106, 185-197). These are
  user-interface plumbing. The model returns the outcome to show. A
  failure shows `Solver.Message` of its error.
- The canvas calls themselves (`clearRect`, `fillRect`, `strokeRect`,
  `fillText`, `translate`, `rotate`, `save`, `restore`, `setLineDash`),
  colours, fonts, line widths and the 5-on/5-off dash pattern. These are
  rendering side effects. The model records only the coordinates those
  calls receive. The width label's rotation of -pi/2 is recorded as a
  flag, `rotated`.
- `parseFloat` (script.js:38-39). Callers supply an already parsed `Num`.
  A parse failure is the `NaN` case.
- `toFixed(2)` and the " units" suffix of the labels (script.js:101-102,
  155, 162). This is string formatting. A label carries the real value it
  shows.
- IEEE-754 arithmetic on finite numbers. Finite numbers are exact reals.
  So rounding is not modelled, and neither is the overflow of
  `Math.pow(halfPerimeter, 2)` to infinity for huge finite perimeters.
  `Math.sqrt` is the supplied `root`, so its rounding is not modelled
  either.
- Calculator.CalculateRectangle: for a +Infinity perimeter that passes
  validation, the model says only that both sides are NaN (`NaNSides`).
  It does not model the display of "NaN" or the canvas calls made with
  NaN coordinates, because reals cannot carry NaN.
- The canvas size comes from the page's canvas element, which is not part
  of this model. It is a parameter, and the fit properties are stated for
  canvases with room inside the padding.

## Findings

| source | as written | input that shows it | evidently intended | confidence | as-written member | corrected member |
|---|---|---|---|---|---|---|
| script.js:62-70 | only `isNaN` is tested, so a +Infinity input passes validation (-Infinity is still caught by the sign test) | perimeter "1e400" (or "Infinity") and area 10: `parseFloat` gives Infinity. Then the discriminant is Infinity, `dim2` is Infinity - Infinity = NaN, and the page shows NaN for both sides | a perimeter or area that is not a finite number is rejected as an invalid number | medium, not executed | `Calculator.InfinitePerimeterShowsNaN` | `Calculator.CalculateRectangleIntended` |
| script.js:207-208 | the console says Perimeter=20, Area=25 gives 7.5 by 2.5, and Perimeter=12, Area=9 gives 4.5 by 1.5 | 7.5 * 2.5 = 18.75, not 25, and 4.5 * 1.5 = 6.75, not 9. Both inputs have discriminant 0, so the calculator shows the squares 5 by 5 and 3 by 3 | examples whose results the calculator actually produces | high, not executed | `Calculator.ConsoleExamplesAreNotResults` | `Calculator.ConsoleExamplesAreSquares` |
