/** The orbit camera's per-frame constraint: before every frame the vertical
    angle is clamped to [0.2, 1.75] and the radius is raised to at least 2.0,
    then lowered to the camera's upper radius limit when one is set. */
module CameraConstraints {
  import opened Common

  const MinBeta: real := 0.2
  const MaxBeta: real := 1.75
  /** The configured lower radius limit; the clamp uses this constant, not the
      camera's own `lowerRadiusLimit` property. */
  const LowerRadiusLimit: real := 2.0
  const UpperRadiusLimit: real := 7.0
  const InitialRadius: real := 4.0

  /** `Math.max(Math.min(beta, 1.75), 0.2)`: the nearest angle in range. */
  function ClampBeta(beta: real): (r: real)
    ensures MinBeta <= r <= MaxBeta
    ensures MinBeta <= beta <= MaxBeta ==> r == beta
    ensures beta < MinBeta ==> r == MinBeta
    ensures beta > MaxBeta ==> r == MaxBeta
  {
    Max(Min(beta, MaxBeta), MinBeta)
  }

  /** How `Math.min` reads its argument: `null` converts to 0. */
  function ToNumber(v: JsValue): real
    requires !v.Undefined?
  {
    if v.Null? then 0.0 else v.n
  }

  /** The radius clamp exactly as written: the upper limit is applied whenever
      it is not `undefined`, so a `null` limit takes part as 0. */
  function ClampRadiusAsWritten(radius: real, upper: JsValue): (r: real)
    ensures upper.Undefined? ==> r >= LowerRadiusLimit
    ensures !upper.Undefined? ==> r <= ToNumber(upper)
  {
    var raised := Max(radius, LowerRadiusLimit);
    if upper != Undefined then Min(raised, ToNumber(upper)) else raised
  }

  /** The radius clamp as intended: the upper limit is applied only when it is
      a number. The lower bound always holds unless a numeric upper limit
      below it wins, since the upper limit is applied last. */
  function ClampRadius(radius: real, upper: JsValue): (r: real)
    ensures !upper.Num? ==> r >= LowerRadiusLimit
    ensures upper.Num? ==> r <= upper.n
    ensures upper.Num? && upper.n >= LowerRadiusLimit ==> r >= LowerRadiusLimit
    ensures upper.Num? && upper.n < LowerRadiusLimit ==> r == upper.n
    ensures LowerRadiusLimit <= radius && (!upper.Num? || radius <= upper.n) ==> r == radius
    ensures radius < LowerRadiusLimit && (!upper.Num? || upper.n >= LowerRadiusLimit) ==> r == LowerRadiusLimit
    ensures upper.Num? && radius > upper.n ==> r == upper.n
  {
    var raised := Max(radius, LowerRadiusLimit);
    if upper.Num? then Min(raised, upper.n) else raised
  }

  /** A state the constraint leaves alone. */
  predicate Constrained(beta: real, radius: real, upper: JsValue) {
    MinBeta <= beta <= MaxBeta &&
    (if upper.Num? then radius == ClampRadius(radius, upper) else radius >= LowerRadiusLimit)
  }

  /** Applying the constraint twice is applying it once. */
  lemma ClampIdempotent(beta: real, radius: real, upper: JsValue)
    ensures ClampBeta(ClampBeta(beta)) == ClampBeta(beta)
    ensures ClampRadius(ClampRadius(radius, upper), upper) == ClampRadius(radius, upper)
    ensures Constrained(ClampBeta(beta), ClampRadius(radius, upper), upper)
  {
  }

  /** The two versions of the radius clamp differ only on a `null` limit. */
  lemma AsWrittenDiffersOnlyOnNull(radius: real, upper: JsValue)
    requires !upper.Null?
    ensures ClampRadiusAsWritten(radius, upper) == ClampRadius(radius, upper)
  {
  }

  /** With a `null` upper limit the clamp as written drives the radius to 0,
      below the lower limit it has just enforced. */
  lemma NullUpperLimitCollapsesRadius()
    ensures ClampRadiusAsWritten(4.0, Null) == 0.0 < LowerRadiusLimit
    ensures ClampRadius(4.0, Null) == 4.0
  {
  }

  /** The orbit camera's state that the constraint and the settings panel touch. */
  class OrbitCamera {
    var beta: real
    var radius: real
    var upperRadiusLimit: JsValue
    var lowerRadiusLimit: JsValue

    /** A camera as the engine creates it: the limits it starts with are the
        engine's (before the scene is ready they are not yet configured). */
    constructor (beta0: real, radius0: real, upper0: JsValue, lower0: JsValue)
      ensures beta == beta0 && radius == radius0
      ensures upperRadiusLimit == upper0 && lowerRadiusLimit == lower0
    {
      beta, radius := beta0, radius0;
      upperRadiusLimit, lowerRadiusLimit := upper0, lower0;
    }

    /** The observer that runs before every frame. */
    method ConstrainFrame()
      modifies this`beta, this`radius
      ensures beta == ClampBeta(old(beta))
      ensures radius == ClampRadius(old(radius), upperRadiusLimit)
      ensures Constrained(beta, radius, upperRadiusLimit)
    {
      beta := Max(Min(beta, MaxBeta), MinBeta);
      radius := Max(radius, LowerRadiusLimit);
      if upperRadiusLimit.Num? {
        radius := Min(radius, upperRadiusLimit.n);
      }
      ClampIdempotent(old(beta), old(radius), upperRadiusLimit);
    }

    /** The configuration applied once the scene is ready; the horizontal angle
        and the target are not modelled. */
    method ApplyReadyConfiguration(configBeta: real)
      modifies this
      ensures radius == InitialRadius && beta == configBeta
      ensures upperRadiusLimit == Num(UpperRadiusLimit) && lowerRadiusLimit == Num(LowerRadiusLimit)
    {
      radius := InitialRadius;
      upperRadiusLimit := Num(UpperRadiusLimit);
      lowerRadiusLimit := Num(LowerRadiusLimit);
      beta := configBeta;
    }

    /** The "Max Camera Distance" input writes the parsed number straight into
        the upper limit; the next frame's constraint then applies it. */
    method SetUpperRadiusLimit(v: real)
      modifies this`upperRadiusLimit
      ensures upperRadiusLimit == Num(v)
    {
      upperRadiusLimit := Num(v);
    }
  }
}
