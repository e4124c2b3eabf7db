/** The dimension solver of script.js: `validateInputs` and
    `calculateDimensions`. A rectangle with sides l and w has perimeter
    P = 2(l + w) and area A = l * w, so each side is a root of
    w^2 - (P/2) w + A = 0. */
module Solver {
  import opened Numbers

  /** The three ways a calculation can fail, in the order they are checked. */
  datatype Error = InvalidNumber | NonPositive | NoRealSolution

  datatype Result<T> = Ok(value: T) | Err(error: Error)

  /** The outcome of a validation that only accepts or rejects. */
  datatype Check = Pass | Fail(error: Error)

  /** Perimeter and area that passed validation. */
  datatype Inputs = Inputs(perimeter: real, area: real)

  /** The solved rectangle: `length` is the longer side, `width` the shorter. */
  datatype Dimensions = Dimensions(length: real, width: real)

  /** The text the page shows for each error. */
  function Message(e: Error): string
  {
    match e
    case InvalidNumber => "Please enter valid numbers for both perimeter and area."
    case NonPositive => "Perimeter and area must be positive numbers."
    case NoRealSolution =>
      "No valid rectangle exists with these perimeter and area values. The area is too large for the given perimeter."
  }

  /** The lengths of the three texts. */
  lemma MessageLength(e: Error)
    ensures e == InvalidNumber ==> |Message(e)| == 55
    ensures e == NonPositive ==> |Message(e)| == 44
    ensures e == NoRealSolution ==> |Message(e)| == 110
  {
    match e
    case InvalidNumber =>
    case NonPositive =>
    case NoRealSolution =>
  }

  /** The page can tell the errors apart: no two of the three texts are
      the same. */
  lemma MessagesDiffer(e1: Error, e2: Error)
    requires e1 != e2
    ensures Message(e1) != Message(e2)
  {
    MessageLength(e1);
    MessageLength(e2);
  }

  // ---------------------------------------------------------------------
  // Validation

  /** JavaScript's `x <= 0` on a number that is not NaN. */
  predicate AtMostZero(x: Num)
  {
    match x
    case NaN => false
    case NegInf => true
    case PosInf => false
    case Finite(v) => v <= 0.0
  }

  /** `validateInputs` exactly as written: a NaN test, then a sign test.
      An infinite input is not NaN, so +Infinity passes both tests. */
  function ValidateAsWritten(perimeter: Num, area: Num): (r: Check)
    ensures r == Fail(InvalidNumber) <==> perimeter == NaN || area == NaN
    ensures r == Fail(NonPositive) <==>
              perimeter != NaN && area != NaN && (AtMostZero(perimeter) || AtMostZero(area))
    ensures r != Fail(NoRealSolution)
  {
    if perimeter.NaN? || area.NaN? then Fail(InvalidNumber)
    else if AtMostZero(perimeter) || AtMostZero(area) then Fail(NonPositive)
    else Pass
  }

  /** Validation as the calculator intends it: both inputs must be finite
      numbers (else InvalidNumber, whatever the other input is), then both
      must be strictly positive (else NonPositive). On success it hands the
      two reals to the solver. */
  function Validate(perimeter: Num, area: Num): (r: Result<Inputs>)
    ensures r == Err(InvalidNumber) <==> !perimeter.Finite? || !area.Finite?
    ensures r == Err(NonPositive) <==>
              perimeter.Finite? && area.Finite? && (perimeter.value <= 0.0 || area.value <= 0.0)
    ensures r != Err(NoRealSolution)
    ensures r.Ok? ==> r.value.perimeter > 0.0 && r.value.area > 0.0
    ensures r.Ok? ==> perimeter == Finite(r.value.perimeter) && area == Finite(r.value.area)
  {
    if !perimeter.Finite? || !area.Finite? then Err(InvalidNumber)
    else if perimeter.value <= 0.0 || area.value <= 0.0 then Err(NonPositive)
    else Ok(Inputs(perimeter.value, area.value))
  }

  /** Forgets the validated values. */
  function ToCheck(r: Result<Inputs>): Check
  {
    if r.Ok? then Pass else Fail(r.error)
  }

  /** Away from the infinities the code as written and the intended
      validation give the same verdict. */
  lemma ValidateAgreesWithoutInfinities(perimeter: Num, area: Num)
    requires perimeter != PosInf && perimeter != NegInf
    requires area != PosInf && area != NegInf
    ensures ValidateAsWritten(perimeter, area) == ToCheck(Validate(perimeter, area))
  {
  }

  /** The input the written guard lets through: a +Infinity perimeter with
      any positive area passes `validateInputs`, although it is not a finite
      number and no rectangle has it as perimeter. */
  lemma AsWrittenAcceptsInfinitePerimeter(area: real)
    requires area > 0.0
    ensures ValidateAsWritten(PosInf, Finite(area)) == Pass
    ensures Validate(PosInf, Finite(area)) == Err(InvalidNumber)
  {
  }

  // ---------------------------------------------------------------------
  // The quadratic

  /** `(P/2)^2 - 4A`, the discriminant of w^2 - (P/2) w + A = 0. */
  function Discriminant(perimeter: real, area: real): real
  {
    (perimeter / 2.0) * (perimeter / 2.0) - 4.0 * area
  }

  /** `root` is what `Math.sqrt(d)` returns, read exactly. */
  predicate IsSqrt(root: real, d: real)
  {
    root >= 0.0 && root * root == d
  }

  /** `calculateDimensions`. The square root of the discriminant is passed
      in as `root`; it is only used, and only constrained, when the
      discriminant is not negative. On success the two sides add up to
      half the perimeter and multiply to the area, the longer one first. */
  function CalculateDimensions(perimeter: real, area: real, root: real): (r: Result<Dimensions>)
    requires Discriminant(perimeter, area) >= 0.0 ==> IsSqrt(root, Discriminant(perimeter, area))
    ensures r.Err? <==> Discriminant(perimeter, area) < 0.0
    ensures r.Err? ==> r.error == NoRealSolution
    ensures r.Ok? ==> r.value.length >= r.value.width
    ensures r.Ok? ==> 2.0 * (r.value.length + r.value.width) == perimeter
    ensures r.Ok? ==> r.value.length * r.value.width == area
  {
    var half := perimeter / 2.0;
    var discriminant := Discriminant(perimeter, area);
    if discriminant < 0.0 then
      Err(NoRealSolution)
    else
      var dim1 := (half + root) / 2.0;
      var dim2 := (half - root) / 2.0;
      ProductOfRoots(half, area, root);
      Ok(Dimensions(Max(dim1, dim2), Min(dim1, dim2)))
  }

  /** Vieta: the two roots of the quadratic multiply to its constant term. */
  lemma ProductOfRoots(half: real, area: real, root: real)
    requires root * root == half * half - 4.0 * area
    ensures ((half + root) / 2.0) * ((half - root) / 2.0) == area
  {
    calc {
      ((half + root) / 2.0) * ((half - root) / 2.0);
      (half * half - root * root) / 4.0;
      area;
    }
  }

  /** Two non-negative reals with the same square are equal. */
  lemma SquareRootUnique(x: real, y: real)
    requires x >= 0.0 && y >= 0.0 && x * x == y * y
    ensures x == y
  {
    if x + y != 0.0 {
      assert (x - y) * (x + y) == x * x - y * y == 0.0;
      assert x - y == (x - y) * (x + y) / (x + y);
    }
  }

  /** The discriminant of a rectangle's own perimeter and area is the
      square of the difference of its sides. */
  lemma RectangleDiscriminant(l: real, w: real)
    ensures Discriminant(2.0 * (l + w), l * w) == (l - w) * (l - w)
  {
    calc {
      Discriminant(2.0 * (l + w), l * w);
      (l + w) * (l + w) - 4.0 * (l * w);
      (l - w) * (l - w);
    }
  }

  /** Each side the solver returns is a root of w^2 - (P/2) w + A = 0. */
  lemma SidesSolveQuadratic(perimeter: real, area: real, root: real)
    requires Discriminant(perimeter, area) >= 0.0 ==> IsSqrt(root, Discriminant(perimeter, area))
    requires CalculateDimensions(perimeter, area, root).Ok?
    ensures var d := CalculateDimensions(perimeter, area, root).value;
            d.length * d.length - (perimeter / 2.0) * d.length + area == 0.0 &&
            d.width * d.width - (perimeter / 2.0) * d.width + area == 0.0
  {
    var d := CalculateDimensions(perimeter, area, root).value;
    var l, w := d.length, d.width;
    assert perimeter / 2.0 == l + w;
    assert l * l - (l + w) * l + l * w == 0.0;
    assert w * w - (l + w) * w + l * w == 0.0;
  }

  /** The solver is complete and canonical: every rectangle with the given
      perimeter and area, longer side first, is exactly what it returns. */
  lemma SolutionIsUnique(perimeter: real, area: real, root: real, l: real, w: real)
    requires Discriminant(perimeter, area) >= 0.0 ==> IsSqrt(root, Discriminant(perimeter, area))
    requires l >= w && 2.0 * (l + w) == perimeter && l * w == area
    ensures CalculateDimensions(perimeter, area, root) == Ok(Dimensions(l, w))
  {
    var half := perimeter / 2.0;
    assert half == l + w;
    RectangleDiscriminant(l, w);
    SquareRootUnique(root, l - w);
    assert (half + root) / 2.0 == l;
    assert (half - root) / 2.0 == w;
  }

  /** When the discriminant is negative no pair of reals at all has the
      given perimeter and area: the error is never a false alarm. */
  lemma NoRectangleWhenDiscriminantNegative(perimeter: real, area: real, l: real, w: real)
    requires Discriminant(perimeter, area) < 0.0
    ensures !(2.0 * (l + w) == perimeter && l * w == area)
  {
    RectangleDiscriminant(l, w);
  }

  /** With a positive perimeter and area both sides are positive, so the
      later division by the width (script.js:125) is safe. */
  lemma SidesPositive(perimeter: real, area: real, root: real)
    requires perimeter > 0.0 && area > 0.0
    requires Discriminant(perimeter, area) >= 0.0 ==> IsSqrt(root, Discriminant(perimeter, area))
    requires CalculateDimensions(perimeter, area, root).Ok?
    ensures CalculateDimensions(perimeter, area, root).value.width > 0.0
    ensures CalculateDimensions(perimeter, area, root).value.length > 0.0
  {
    var half := perimeter / 2.0;
    assert root * root == half * half - 4.0 * area;
    assert half + root > 0.0;
    assert (half - root) * (half + root) == 4.0 * area;
    assert half - root == 4.0 * area / (half + root);
  }

  /** A zero discriminant, and only a zero discriminant, gives a square,
      whose side is a quarter of the perimeter. */
  lemma SquareIffDiscriminantZero(perimeter: real, area: real, root: real)
    requires Discriminant(perimeter, area) >= 0.0 ==> IsSqrt(root, Discriminant(perimeter, area))
    ensures Discriminant(perimeter, area) == 0.0 ==>
              CalculateDimensions(perimeter, area, root) == Ok(Dimensions(perimeter / 4.0, perimeter / 4.0))
    ensures (CalculateDimensions(perimeter, area, root).Ok? &&
             CalculateDimensions(perimeter, area, root).value.length ==
             CalculateDimensions(perimeter, area, root).value.width) ==>
              Discriminant(perimeter, area) == 0.0
  {
    if Discriminant(perimeter, area) == 0.0 {
      SquareRootUnique(root, 0.0);
    }
    var r := CalculateDimensions(perimeter, area, root);
    if r.Ok? && r.value.length == r.value.width {
      EqualSidesMeanZeroRoot(perimeter, area, root, r.value.length);
    }
  }

  /** Helper: if the two roots coincide the supplied square root is zero. */
  lemma EqualSidesMeanZeroRoot(perimeter: real, area: real, root: real, s: real)
    requires Discriminant(perimeter, area) >= 0.0 ==> IsSqrt(root, Discriminant(perimeter, area))
    requires CalculateDimensions(perimeter, area, root) == Ok(Dimensions(s, s))
    ensures Discriminant(perimeter, area) == 0.0
  {
    var half := perimeter / 2.0;
    assert Max((half + root) / 2.0, (half - root) / 2.0) == Min((half + root) / 2.0, (half - root) / 2.0);
    assert root == 0.0;
  }
}
