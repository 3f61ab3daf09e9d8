/**
 * The engine's value types (Vector3, Quaternion) and the engine library calls
 * the switcher relies on. Float arithmetic is modelled on `real`.
 *
 * The engine's rotation library (Euler conversions, axis-angle, slerp and the
 * quaternion product), its float parser and its lower-casing have no visible
 * source; they are gathered in the `Engine` record as plain function values,
 * so nothing is assumed about them beyond being functions.
 */
module UnityMath {
  import opened Wrappers

  /** A coordinate axis; the engine's Vector3 indexer accepts 0, 1 and 2. */
  datatype Axis = X | Y | Z

  /** The axis a Vector3 index denotes; any other index makes the indexer throw. */
  function AxisOf(index: int): (r: Option<Axis>)
    ensures r.Some? <==> 0 <= index < 3
    ensures index == 0 ==> r == Some(X)
    ensures index == 1 ==> r == Some(Y)
    ensures index == 2 ==> r == Some(Z)
  {
    if index == 0 then Some(X)
    else if index == 1 then Some(Y)
    else if index == 2 then Some(Z)
    else None
  }

  /** Vector3: three floats, read and written by axis. */
  datatype Vec3 = Vec3(x: real, y: real, z: real) {
    function Get(axis: Axis): real {
      match axis
      case X => x
      case Y => y
      case Z => z
    }

    /** `v[axis] = value`: the one component is overwritten, the others kept. */
    function With(axis: Axis, value: real): (r: Vec3)
      ensures r.Get(axis) == value
      ensures forall other: Axis :: other != axis ==> r.Get(other) == Get(other)
    {
      match axis
      case X => this.(x := value)
      case Y => this.(y := value)
      case Z => this.(z := value)
    }
  }

  const Zero: Vec3 := Vec3(0.0, 0.0, 0.0)

  /** The unit vector along `axis`: Vector3.zero with 1 written at that index. */
  function UnitAxis(axis: Axis): (r: Vec3)
    ensures r.Get(axis) == 1.0
    ensures forall other: Axis :: other != axis ==> r.Get(other) == 0.0
  {
    Zero.With(axis, 1.0)
  }

  /** One of the four stored components of a Quaternion. */
  datatype QuatPart = PartX | PartY | PartZ | PartW

  /**
   * Quaternion: four floats (x, y, z, w). The engine stores whatever is
   * written to a component; nothing renormalises it.
   */
  datatype Quat = Quat(x: real, y: real, z: real, w: real) {
    function Get(part: QuatPart): real {
      match part
      case PartX => x
      case PartY => y
      case PartZ => z
      case PartW => w
    }

    /** `q.x = value` (or y, z, w): one stored component overwritten. */
    function With(part: QuatPart, value: real): (r: Quat)
      ensures r.Get(part) == value
      ensures forall other: QuatPart :: other != part ==> r.Get(other) == Get(other)
    {
      match part
      case PartX => this.(x := value)
      case PartY => this.(y := value)
      case PartZ => this.(z := value)
      case PartW => this.(w := value)
    }

    /** Squared length; 1 for a unit quaternion. */
    function Norm2(): real {
      x * x + y * y + z * z + w * w
    }
  }

  const Identity: Quat := Quat(0.0, 0.0, 0.0, 1.0)

  /** Mathf.Clamp01. */
  function Clamp01(t: real): (r: real)
    ensures 0.0 <= r <= 1.0
    ensures 0.0 <= t <= 1.0 ==> r == t
    ensures t < 0.0 ==> r == 0.0
    ensures t > 1.0 ==> r == 1.0
  {
    if t < 0.0 then 0.0 else if t > 1.0 then 1.0 else t
  }

  /** Vector3.Lerp: the parameter is clamped to [0, 1], then each component is interpolated. */
  function Lerp(a: Vec3, b: Vec3, t: real): (r: Vec3)
    ensures t <= 0.0 ==> r == a
    ensures t >= 1.0 ==> r == b
    ensures t == 0.5 ==> r == Vec3((a.x + b.x) / 2.0, (a.y + b.y) / 2.0, (a.z + b.z) / 2.0)
    ensures forall axis: Axis :: Between(a.Get(axis), b.Get(axis), r.Get(axis))
  {
    var s := Clamp01(t);
    Vec3(Step(a.x, b.x, s), Step(a.y, b.y, s), Step(a.z, b.z, s))
  }

  /** One interpolated component: a fraction `s` of the way from `lo` to `hi`. */
  function Step(lo: real, hi: real, s: real): (r: real)
    requires 0.0 <= s <= 1.0
    ensures s == 0.0 ==> r == lo
    ensures s == 1.0 ==> r == hi
    ensures s == 0.5 ==> r == (lo + hi) / 2.0
    ensures Between(lo, hi, r)
  {
    ScaledStepBetween(lo, hi, s);
    lo + (hi - lo) * s
  }

  /** A step of fraction `s` in [0, 1] from `lo` towards `hi` stays between the two. */
  lemma ScaledStepBetween(lo: real, hi: real, s: real)
    requires 0.0 <= s <= 1.0
    ensures Between(lo, hi, lo + (hi - lo) * s)
  {
    var d := hi - lo;
    assert d * s + d * (1.0 - s) == d;
    if lo <= hi {
      ProductNonNegative(d, s);
      ProductNonNegative(d, 1.0 - s);
    } else {
      ProductNonNegative(-d, s);
      ProductNonNegative(-d, 1.0 - s);
      assert (-d) * s == -(d * s);
      assert (-d) * (1.0 - s) == -(d * (1.0 - s));
    }
  }

  lemma ProductNonNegative(a: real, b: real)
    requires 0.0 <= a && 0.0 <= b
    ensures 0.0 <= a * b
  {
  }

  /** `v` lies between `lo` and `hi`, in whichever order those two come. */
  predicate Between(lo: real, hi: real, v: real) {
    (lo <= v <= hi) || (hi <= v <= lo)
  }

  /**
   * The engine library calls the switcher makes, as opaque functions:
   *  - fromEuler: Quaternion.Euler, and the `eulerAngles` setter (which the engine defines as the same conversion);
   *  - toEuler: the `eulerAngles` getter;
   *  - angleAxis: Quaternion.AngleAxis(degrees, axis);
   *  - slerp: Quaternion.Slerp(a, b, t);
   *  - compose: the quaternion product `a * b`;
   *  - tryParse: float.TryParse, None when the text does not parse;
   *  - toLower: string.ToLower.
   */
  datatype Engine = Engine(
    fromEuler: Vec3 -> Quat,
    toEuler: Quat -> Vec3,
    angleAxis: (real, Vec3) -> Quat,
    slerp: (Quat, Quat, real) -> Quat,
    compose: (Quat, Quat) -> Quat,
    tryParse: string -> Option<real>,
    toLower: string -> string)
}
