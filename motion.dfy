/** The float motion of one image: the `switch (direction)` that turns a
    direction and a strength into the (x, y) offset reached halfway through
    the animation. */
module FloatMotion {
  import opened Js

  /** The offset in pixels; components are JavaScript numbers, so a NaN
      strength stays NaN. */
  datatype Vector = Vector(x: JsNumber, y: JsNumber)

  /** `n * k` */
  function Scale(n: JsNumber, k: real): JsNumber {
    if n.Num? then Num(n.n * k) else NaN
  }

  /** `-n` */
  function Negate(n: JsNumber): JsNumber {
    if n.Num? then Num(-n.n) else NaN
  }

  /** The switch compares with `===`, so only the strings "x" and "xy" are
      recognised; "y" and every other value share the default branch. */
  function FloatVector(direction: JsValue, strength: JsNumber): (r: Vector)
    ensures direction != Str("xy") ==> r.x == Num(0.0) || r.y == Num(0.0)
    ensures strength == Num(0.0) ==> r == Vector(Num(0.0), Num(0.0))
  {
    if direction == Str("x") then Vector(strength, Num(0.0))
    else if direction == Str("xy") then Vector(Scale(strength, 0.7), Scale(Negate(strength), 0.7))
    else Vector(Num(0.0), Negate(strength))
  }

  /** The three branches, for a numeric strength s: "x" gives (s, 0), "xy"
      gives (0.7s, -0.7s), anything else gives (0, -s). */
  lemma FloatVectorCases(direction: JsValue, s: real)
    ensures direction == Str("x") ==> FloatVector(direction, Num(s)) == Vector(Num(s), Num(0.0))
    ensures direction == Str("xy") ==> FloatVector(direction, Num(s)) == Vector(Num(0.7 * s), Num(-0.7 * s))
    ensures direction != Str("x") && direction != Str("xy") ==>
              FloatVector(direction, Num(s)) == Vector(Num(0.0), Num(-s))
  {
  }

  /** An unrecognised direction moves exactly like "y". */
  lemma UnrecognisedDirectionIsY(direction: JsValue, strength: JsNumber)
    requires direction != Str("x") && direction != Str("xy")
    ensures FloatVector(direction, strength) == FloatVector(Str("y"), strength)
  {
  }

  /** For a non-zero strength, the x offset moves exactly for "x" and "xy",
      and the y offset moves for every direction except "x". */
  lemma MovingAxes(direction: JsValue, s: real)
    requires s != 0.0
    ensures FloatVector(direction, Num(s)).x != Num(0.0) <==> direction == Str("x") || direction == Str("xy")
    ensures FloatVector(direction, Num(s)).y != Num(0.0) <==> direction != Str("x")
  {
  }

  /** The offset is linear in the strength: it is the strength times the
      offset for strength 1, so a strength of 0 means no motion. */
  lemma FloatVectorIsLinear(direction: JsValue, s: real)
    ensures FloatVector(direction, Num(1.0)).x.Num? && FloatVector(direction, Num(1.0)).y.Num?
    ensures FloatVector(direction, Num(s)) ==
              Vector(Num(s * FloatVector(direction, Num(1.0)).x.n), Num(s * FloatVector(direction, Num(1.0)).y.n))
  {
  }

  /** A NaN strength reaches every axis the direction moves. */
  lemma NaNStrengthPropagates(direction: JsValue)
    ensures FloatVector(direction, NaN).x == NaN <==> direction == Str("x") || direction == Str("xy")
    ensures FloatVector(direction, NaN).y == NaN <==> direction != Str("x")
  {
  }

  /** With strength 10: "x" gives (10, 0), "xy" gives (7, -7), "y" and an
      unknown direction give (0, -10). */
  lemma StrengthTenExamples()
    ensures FloatVector(Str("x"), Num(10.0)) == Vector(Num(10.0), Num(0.0))
    ensures FloatVector(Str("xy"), Num(10.0)) == Vector(Num(7.0), Num(-7.0))
    ensures FloatVector(Str("y"), Num(10.0)) == Vector(Num(0.0), Num(-10.0))
    ensures FloatVector(Str("diagonal"), Num(10.0)) == Vector(Num(0.0), Num(-10.0))
  {
  }
}
