/**
 The scale-input normaliser: every public operation accepts a number, a
 Vector2, a Vector3 or an already built specifier, and resolves it into one
 value carrying three views of the scale (a scalar, a 2-vector and a
 3-vector).
 */
module ScaleSpecifiers {
  import opened Vectors

  /** The polymorphic scale argument (`ScaleInputType`). */
  datatype ScaleInput =
    | Number(n: real)
    | Vector2(v2: Vec2)
    | Vector3(v3: Vec3)
    | Specifier(spec: ScaleSpecifier)

  /** A resolved scale: which shape the raw input had, and its three views. */
  datatype ScaleSpecifier = ScaleSpecifier(
    isNumber: bool,
    isVector2: bool,
    isVector3: bool,
    isScaleSpec: bool,
    asNumber: real,
    asVector2: Vec2,
    asVector3: Vec3)

  /** Left-to-right sum, the `reduce` with initial value 0. */
  function Sum(numbers: seq<real>): real {
    if |numbers| == 0 then 0.0 else Sum(numbers[..|numbers| - 1]) + numbers[|numbers| - 1]
  }

  /** The arithmetic mean of a list of numbers; 0 for the empty list. */
  function Average(numbers: seq<real>): (r: real)
    ensures |numbers| == 0 ==> r == 0.0
    ensures |numbers| > 0 ==> r * (|numbers| as real) == Sum(numbers)
  {
    if |numbers| == 0 then 0.0 else Sum(numbers) / (|numbers| as real)
  }

  /** The mean of a 3-vector's components. */
  function Mean3(v: Vec3): real {
    (v.x + v.y + v.z) / 3.0
  }

  /** Exactly one of the four shape flags is set. */
  predicate ExactlyOneShape(s: ScaleSpecifier) {
    && (s.isNumber ==> !s.isVector2 && !s.isVector3 && !s.isScaleSpec)
    && (s.isVector2 ==> !s.isNumber && !s.isVector3 && !s.isScaleSpec)
    && (s.isVector3 ==> !s.isNumber && !s.isVector2 && !s.isScaleSpec)
    && (s.isNumber || s.isVector2 || s.isVector3 || s.isScaleSpec)
  }

  /** The three views agree: the 2D view is the 3D view without its
      third axis, and the scalar view is the mean of the 3D view. */
  predicate Coherent(s: ScaleSpecifier) {
    s.asVector2 == XY(s.asVector3) && s.asNumber == Mean3(s.asVector3)
  }

  /** The views of two specifiers are the same. */
  predicate SameViews(a: ScaleSpecifier, b: ScaleSpecifier) {
    a.asNumber == b.asNumber && a.asVector2 == b.asVector2 && a.asVector3 == b.asVector3
  }

  /** The `ScaleSpecifier` constructor. */
  function Specify(input: ScaleInput): (s: ScaleSpecifier)
    ensures ExactlyOneShape(s)
    ensures s.isNumber <==> input.Number?
    ensures s.isVector2 <==> input.Vector2?
    ensures s.isVector3 <==> input.Vector3?
    ensures s.isScaleSpec <==> input.Specifier?
    ensures input.Number? ==> s.asNumber == input.n && s.asVector3 == Broadcast(input.n)
    ensures input.Vector2? ==> s.asVector2 == input.v2 && s.asNumber == (input.v2.x + input.v2.y) / 2.0
    ensures input.Vector3? ==> s.asVector3 == input.v3
    ensures input.Specifier? ==> SameViews(s, input.spec)
    ensures !input.Specifier? || Coherent(input.spec) ==> Coherent(s)
  {
    match input
    case Number(n) =>
      ScaleSpecifier(true, false, false, false, n, Vec2(n, n), Vec3(n, n, n))
    case Vector2(v) =>
      var mean := Average([v.x, v.y]);
      SumOfTwo(v.x, v.y);
      ScaleSpecifier(false, true, false, false, mean, v, Vec3(v.x, v.y, mean))
    case Vector3(v) =>
      var mean := Average([v.x, v.y, v.z]);
      SumOfThree(v.x, v.y, v.z);
      ScaleSpecifier(false, false, true, false, mean, Vec2(v.x, v.y), v)
    case Specifier(spec) =>
      ScaleSpecifier(false, false, false, true, spec.asNumber, spec.asVector2, spec.asVector3)
  }

  /** The identity short-circuit `scale === 1`: only the literal number 1
      matches; a unit vector or a specifier never does. */
  function IsLiteralOne(scale: ScaleInput): (r: bool)
    ensures r ==> Specify(scale).isNumber && UnitViews(Specify(scale))
  {
    scale == Number(1.0)
  }

  /** The factors by which sizes are multiplied: the 3D view when the raw
      input was a Vector3, otherwise the scalar view on every axis. */
  function SizeFactors(s: ScaleSpecifier): (r: Vec3)
    ensures UnitViews(s) ==> r == One
  {
    if s.isVector3 then s.asVector3 else Broadcast(s.asNumber)
  }

  /** All three views of a specifier are the unit scale. */
  predicate UnitViews(s: ScaleSpecifier) {
    s.asNumber == 1.0 && s.asVector2 == Vec2(1.0, 1.0) && s.asVector3 == One
  }

  lemma SumOfTwo(a: real, b: real)
    ensures Sum([a, b]) == a + b
  {
    assert [a][..0] == [];
    assert Sum([a]) == a;
    assert [a, b][..1] == [a];
  }

  lemma SumOfThree(a: real, b: real, c: real)
    ensures Sum([a, b, c]) == a + b + c
  {
    assert [a, b, c][..2] == [a, b];
    SumOfTwo(a, b);
  }

  lemma {:induction false} SumBounds(numbers: seq<real>, lo: real, hi: real)
    requires forall i :: 0 <= i < |numbers| ==> lo <= numbers[i] <= hi
    ensures (|numbers| as real) * lo <= Sum(numbers) <= (|numbers| as real) * hi
  {
    if |numbers| > 0 {
      SumBounds(numbers[..|numbers| - 1], lo, hi);
    }
  }

  /** The mean of a non-empty list lies between any bounds of its elements. */
  lemma AverageWithinBounds(numbers: seq<real>, lo: real, hi: real)
    requires |numbers| > 0
    requires forall i :: 0 <= i < |numbers| ==> lo <= numbers[i] <= hi
    ensures lo <= Average(numbers) <= hi
  {
    SumBounds(numbers, lo, hi);
  }

  /** The mean of a list of equal numbers is that number. */
  lemma AverageOfConstant(numbers: seq<real>, c: real)
    requires |numbers| > 0
    requires forall i :: 0 <= i < |numbers| ==> numbers[i] == c
    ensures Average(numbers) == c
  {
    SumBounds(numbers, c, c);
  }

  /** A specifier built from a number, a Vector2 or a Vector3 reads back the
      raw input from the view of the same shape, and its views are coherent. */
  lemma RawInputRoundTrip(input: ScaleInput)
    requires !input.Specifier?
    ensures Coherent(Specify(input))
    ensures input.Number? ==> Specify(input).asNumber == input.n
    ensures input.Vector2? ==> Specify(input).asVector2 == input.v2
    ensures input.Vector3? ==> Specify(input).asVector3 == input.v3
  {
  }

  /** Wrapping a specifier is idempotent on the views, however often it is
      repeated, but it forgets the shape of the raw input. */
  lemma WrappingKeepsViews(input: ScaleInput)
    ensures SameViews(Specify(Specifier(Specify(input))), Specify(input))
    ensures SameViews(Specify(Specifier(Specify(Specifier(Specify(input))))), Specify(input))
    ensures Specify(Specifier(Specify(input))).isScaleSpec
    ensures !Specify(Specifier(Specify(input))).isVector3
  {
  }

  /** A Vector3 scale of (2, 1, 1) stretches sizes along one axis only, but
      once wrapped in a second specifier it resizes uniformly by the mean. */
  lemma WrappedVector3SizesUniformly()
    ensures SizeFactors(Specify(Vector3(Vec3(2.0, 1.0, 1.0)))) == Vec3(2.0, 1.0, 1.0)
    ensures SizeFactors(Specify(Specifier(Specify(Vector3(Vec3(2.0, 1.0, 1.0)))))) == Broadcast(4.0 / 3.0)
  {
  }

  /** The literal 1 and every unit vector resolve to unit views. */
  lemma UnitInputsHaveUnitViews(input: ScaleInput)
    requires input == Number(1.0) || input == Vector2(Vec2(1.0, 1.0)) || input == Vector3(One)
    ensures UnitViews(Specify(input))
  {
  }

  /** On average over the three axes, sizes grow by the scalar view,
      whichever branch is taken. */
  lemma SizeFactorsMeanIsScalar(s: ScaleSpecifier)
    requires Coherent(s)
    ensures Mean3(SizeFactors(s)) == s.asNumber
  {
  }

  /** The size factors of each raw input: a number on every axis, a Vector3
      axis by axis, and the mean of a Vector2 or of a wrapped specifier's
      views on every axis. */
  lemma SizeFactorsByInput(input: ScaleInput)
    ensures input.Number? ==> SizeFactors(Specify(input)) == Broadcast(input.n)
    ensures input.Vector2? ==> SizeFactors(Specify(input)) == Broadcast((input.v2.x + input.v2.y) / 2.0)
    ensures input.Vector3? ==> SizeFactors(Specify(input)) == input.v3
    ensures input.Specifier? ==> SizeFactors(Specify(input)) == Broadcast(input.spec.asNumber)
  {
    if input.Vector2? {
      SumOfTwo(input.v2.x, input.v2.y);
    }
  }

  /** Sizes follow a raw Vector3 axis by axis and every other input by its
      scalar view. */
  lemma SizeFactorsFollowShape(input: ScaleInput)
    ensures input.Vector3? ==> SizeFactors(Specify(input)) == input.v3
    ensures !input.Vector3? ==> SizeFactors(Specify(input)) == Broadcast(Specify(input).asNumber)
  {
  }
}
