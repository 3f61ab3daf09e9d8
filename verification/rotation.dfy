/**
 * The orientation arithmetic of the model switcher, on values: one tick of
 * continuous rotation, one text-field edit of an orientation, and the
 * interpolated orientation shown between the start and end orientations.
 * Everything rotational is delegated to the opaque engine calls in `Engine`.
 */
module Rotation {
  import opened Wrappers
  import opened UnityMath

  /** Rotation speed of the rotate buttons, in degrees per second. */
  const DegreesPerSecond: real := 60.0

  /** The angle one tick turns by: negative for clockwise, positive otherwise. */
  function Increment(cw: bool, dt: real): (r: real)
    ensures cw ==> r == -DegreesPerSecond * dt
    ensures !cw ==> r == DegreesPerSecond * dt
  {
    DegreesPerSecond * dt * (if cw then -1.0 else 1.0)
  }

  /**
   * One tick of continuous rotation of `rot` about `axis`.
   * World space: the axis-angle increment is composed on the LEFT of `rot`.
   * Local space: the Euler view of `rot` gets the increment on one axis and is
   * converted back (an Euler increment, not a local-frame composition).
   */
  function RotateStep(e: Engine, rot: Quat, cw: bool, axis: Axis, world: bool, dt: real): (r: Quat)
    ensures world ==> r == e.compose(e.angleAxis(Increment(cw, dt), UnitAxis(axis)), rot)
    ensures !world ==>
      exists ea: Vec3 :: (r == e.fromEuler(ea) && ea.Get(axis) == e.toEuler(rot).Get(axis) + Increment(cw, dt) &&
                          forall other: Axis :: other != axis ==> ea.Get(other) == e.toEuler(rot).Get(other))
  {
    if world then
      e.compose(e.angleAxis(Increment(cw, dt), UnitAxis(axis)), rot)
    else
      var ea := e.toEuler(rot);
      e.fromEuler(ea.With(axis, ea.Get(axis) + Increment(cw, dt)))
  }

  /** The seven text fields of one orientation: three Euler angles and four quaternion components. */
  datatype RotationComponent = EulerX | EulerY | EulerZ | QuatX | QuatY | QuatZ | QuatW {
    predicate IsEuler() {
      EulerX? || EulerY? || EulerZ?
    }

    function EulerAxis(): Axis
      requires IsEuler()
    {
      match this
      case EulerX => X
      case EulerY => Y
      case EulerZ => Z
    }

    function Part(): QuatPart
      requires !IsEuler()
    {
      match this
      case QuatX => PartX
      case QuatY => PartY
      case QuatZ => PartZ
      case QuatW => PartW
    }
  }

  /**
   * The orientation after a parsed `value` is written to one field of `rot`.
   * An Euler field: read the Euler view, overwrite that angle, convert back.
   * A quaternion field: overwrite that one stored component and nothing else;
   * the result is not renormalised.
   */
  function EditComponent(e: Engine, rot: Quat, c: RotationComponent, value: real): (r: Quat)
    ensures !c.IsEuler() ==> r.Get(c.Part()) == value
    ensures !c.IsEuler() ==> forall p: QuatPart :: p != c.Part() ==> r.Get(p) == rot.Get(p)
    ensures c.IsEuler() ==>
      exists ea: Vec3 :: (r == e.fromEuler(ea) && ea.Get(c.EulerAxis()) == value &&
                          forall other: Axis :: other != c.EulerAxis() ==> ea.Get(other) == e.toEuler(rot).Get(other))
  {
    if c.IsEuler() then
      var ea := e.toEuler(rot).With(c.EulerAxis(), value);
      e.fromEuler(ea)
    else
      rot.With(c.Part(), value)
  }

  /** Which of the two interpolations the preview uses. */
  datatype InterpolationMode = EulerLerp | QuatSlerp

  /**
   * The previewed orientation at parameter `alpha`: in Euler mode the two
   * Euler views are interpolated component-wise and converted back, in
   * quaternion mode the engine's slerp is used.
   */
  function Interpolate(e: Engine, mode: InterpolationMode, start: Quat, end: Quat, alpha: real): (r: Quat)
    ensures mode == EulerLerp ==> r == e.fromEuler(Lerp(e.toEuler(start), e.toEuler(end), alpha))
    ensures mode == QuatSlerp ==> r == e.slerp(start, end, alpha)
  {
    match mode
    case EulerLerp => e.fromEuler(Lerp(e.toEuler(start), e.toEuler(end), alpha))
    case QuatSlerp => e.slerp(start, end, alpha)
  }

  // ---------------------------------------------------------------------------
  // Properties of the operations

  /**
   * A local-space tick is exactly an Euler-field edit of the same axis whose
   * value is the current angle plus the increment.
   */
  lemma LocalStepIsEulerEdit(e: Engine, rot: Quat, cw: bool, c: RotationComponent, dt: real)
    requires c.IsEuler()
    ensures RotateStep(e, rot, cw, c.EulerAxis(), false, dt)
         == EditComponent(e, rot, c, e.toEuler(rot).Get(c.EulerAxis()) + Increment(cw, dt))
  {
  }

  /** Clockwise is counter-clockwise with time running backwards, in both spaces. */
  lemma ClockwiseReversesTime(e: Engine, rot: Quat, axis: Axis, world: bool, dt: real)
    ensures RotateStep(e, rot, true, axis, world, dt) == RotateStep(e, rot, false, axis, world, -dt)
  {
  }

  /**
   * One second of world-space rotation about Y turns by 60 degrees about the
   * world Y axis, composed on the left, whatever `rot` is.
   */
  lemma WorldStepAboutY(e: Engine, rot: Quat)
    ensures RotateStep(e, rot, false, Y, true, 1.0) == e.compose(e.angleAxis(60.0, Vec3(0.0, 1.0, 0.0)), rot)
  {
  }

  /**
   * A world-space tick composes one and the same increment on the left of
   * every orientation: the increment does not depend on the orientation.
   */
  lemma WorldStepSameIncrement(e: Engine, rot1: Quat, rot2: Quat, cw: bool, axis: Axis, dt: real)
    ensures exists inc: Quat :: RotateStep(e, rot1, cw, axis, true, dt) == e.compose(inc, rot1) &&
                                RotateStep(e, rot2, cw, axis, true, dt) == e.compose(inc, rot2)
  {
    var inc := e.angleAxis(Increment(cw, dt), UnitAxis(axis));
    assert RotateStep(e, rot1, cw, axis, true, dt) == e.compose(inc, rot1);
  }

  /** Writing the same quaternion field twice keeps only the last value. */
  lemma QuatEditLastWins(e: Engine, rot: Quat, c: RotationComponent, v1: real, v2: real)
    requires !c.IsEuler()
    ensures EditComponent(e, EditComponent(e, rot, c, v1), c, v2) == EditComponent(e, rot, c, v2)
  {
  }

  /** Edits of two different quaternion fields commute. */
  lemma QuatEditsCommute(e: Engine, rot: Quat, c1: RotationComponent, v1: real, c2: RotationComponent, v2: real)
    requires !c1.IsEuler() && !c2.IsEuler() && c1 != c2
    ensures EditComponent(e, EditComponent(e, rot, c1, v1), c2, v2)
         == EditComponent(e, EditComponent(e, rot, c2, v2), c1, v1)
  {
  }

  /**
   * Quaternion edits do not renormalise: setting x of the identity to 0.5
   * gives (0.5, 0, 0, 1), whose squared length is 1.25.
   */
  lemma QuatEditDoesNotNormalise(e: Engine)
    ensures EditComponent(e, Identity, QuatX, 0.5) == Quat(0.5, 0.0, 0.0, 1.0)
    ensures EditComponent(e, Identity, QuatX, 0.5).Norm2() == 1.25
  {
  }

  /**
   * An Euler-field edit sees the orientation only through its Euler view:
   * two orientations with the same Euler angles give the same result.
   */
  lemma EulerEditSeesOnlyEulerView(e: Engine, q1: Quat, q2: Quat, c: RotationComponent, value: real)
    requires c.IsEuler() && e.toEuler(q1) == e.toEuler(q2)
    ensures EditComponent(e, q1, c, value) == EditComponent(e, q2, c, value)
  {
  }

  /** Euler-mode interpolation at or below 0 shows the start's Euler view, at or above 1 the end's. */
  lemma EulerInterpolationEnds(e: Engine, start: Quat, end: Quat, alpha: real)
    ensures alpha <= 0.0 ==> Interpolate(e, EulerLerp, start, end, alpha) == e.fromEuler(e.toEuler(start))
    ensures alpha >= 1.0 ==> Interpolate(e, EulerLerp, start, end, alpha) == e.fromEuler(e.toEuler(end))
  {
  }

  /**
   * Euler-mode interpolation half way converts the average of the two Euler
   * views: with Euler views (0, 0, 0) and (0, 0, 180) it shows (0, 0, 90).
   */
  lemma EulerInterpolationMidpoint(e: Engine, start: Quat, end: Quat)
    requires e.toEuler(start) == Vec3(0.0, 0.0, 0.0) && e.toEuler(end) == Vec3(0.0, 0.0, 180.0)
    ensures Interpolate(e, EulerLerp, start, end, 0.5) == e.fromEuler(Vec3(0.0, 0.0, 90.0))
  {
  }

  /**
   * Euler-mode interpolation passes each Euler angle between the two ends'
   * angles to the conversion.
   */
  lemma EulerInterpolationBetween(e: Engine, start: Quat, end: Quat, alpha: real)
    ensures exists ea: Vec3 :: (Interpolate(e, EulerLerp, start, end, alpha) == e.fromEuler(ea) &&
              forall axis: Axis :: Between(e.toEuler(start).Get(axis), e.toEuler(end).Get(axis), ea.Get(axis)))
  {
    var ea := Lerp(e.toEuler(start), e.toEuler(end), alpha);
    assert Interpolate(e, EulerLerp, start, end, alpha) == e.fromEuler(ea);
  }
}
