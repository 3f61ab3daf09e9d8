/**
 * The ModelSwitcher component: the start and end orientations, the
 * interpolation mode, the two flags of the rotate buttons and the selected
 * model, updated in place by the component's event handlers and its
 * per-frame tick.
 */
module Switcher {
  import opened Wrappers
  import opened UnityMath
  import opened Rotation

  /** An entry of the model list; its prefab belongs to the scene and is not modelled. */
  datatype Model = Model(name: string)

  /** Case-insensitive name equality, through the engine's lower-casing. */
  predicate NameMatches(e: Engine, name: string, m: Model): (b: bool)
    ensures b <==> e.toLower(name) == e.toLower(m.name)
    ensures name == m.name ==> b
  {
    e.toLower(name) == e.toLower(m.name)
  }

  /** The first index at or after `from` whose model matches `name`, if any. */
  function FirstMatch(e: Engine, models: seq<Model>, name: string, from: nat): (r: Option<nat>)
    decreases |models| - from
    ensures r.Some? ==> from <= r.value < |models| && NameMatches(e, name, models[r.value])
    ensures r.Some? ==> forall j :: from <= j < r.value ==> !NameMatches(e, name, models[j])
    ensures r.None? <==> forall j :: from <= j < |models| ==> !NameMatches(e, name, models[j])
  {
    if from >= |models| then None
    else if NameMatches(e, name, models[from]) then Some(from)
    else FirstMatch(e, models, name, from + 1)
  }

  /** The lookup sees a name only through its lower-cased form. */
  lemma LookupIgnoresCase(e: Engine, models: seq<Model>, a: string, b: string, from: nat)
    requires e.toLower(a) == e.toLower(b)
    ensures FirstMatch(e, models, a, from) == FirstMatch(e, models, b, from)
  {
  }

  /** Any index that matches, with no match before it, is the one the lookup returns. */
  lemma FirstMatchIsUnique(e: Engine, models: seq<Model>, name: string, i: nat)
    requires i < |models| && NameMatches(e, name, models[i])
    requires forall j :: 0 <= j < i ==> !NameMatches(e, name, models[j])
    ensures FirstMatch(e, models, name, 0) == Some(i)
  {
  }

  /**
   * The start and end orientations after one rotation step. Side selector 0
   * is the start orientation, anything else the end one; space selector 0 is
   * world space, anything else local space. An axis index outside 0..2 makes
   * the engine's Vector3 indexer throw before anything is written.
   */
  function RotateSelected(e: Engine, startRot: Quat, endRot: Quat, cw: bool, side: int, axis: int, space: int, dt: real): (r: (Quat, Quat))
    ensures AxisOf(axis).None? ==> r == (startRot, endRot)
    ensures side == 0 ==> r.1 == endRot
    ensures side != 0 ==> r.0 == startRot
    ensures AxisOf(axis).Some? && side == 0 ==> r.0 == RotateStep(e, startRot, cw, AxisOf(axis).value, space == 0, dt)
    ensures AxisOf(axis).Some? && side != 0 ==> r.1 == RotateStep(e, endRot, cw, AxisOf(axis).value, space == 0, dt)
  {
    match AxisOf(axis)
    case None => (startRot, endRot)
    case Some(a) =>
      if side == 0 then (RotateStep(e, startRot, cw, a, space == 0, dt), endRot)
      else (startRot, RotateStep(e, endRot, cw, a, space == 0, dt))
  }

  /**
   * The start and end orientations after the text `valueStr` is entered in
   * field `c` of the start (`start`) or end orientation. Text that does not
   * parse changes nothing.
   */
  function EditSelected(e: Engine, startRot: Quat, endRot: Quat, valueStr: string, start: bool, c: RotationComponent): (r: (Quat, Quat))
    ensures e.tryParse(valueStr).None? ==> r == (startRot, endRot)
    ensures start ==> r.1 == endRot
    ensures !start ==> r.0 == startRot
    ensures e.tryParse(valueStr).Some? && start ==> r.0 == EditComponent(e, startRot, c, e.tryParse(valueStr).value)
    ensures e.tryParse(valueStr).Some? && !start ==> r.1 == EditComponent(e, endRot, c, e.tryParse(valueStr).value)
  {
    match e.tryParse(valueStr)
    case None => (startRot, endRot)
    case Some(value) =>
      if start then (EditComponent(e, startRot, c, value), endRot)
      else (startRot, EditComponent(e, endRot, c, value))
  }

  /** The mode a mode-dropdown option selects: option 0 is Euler, any other quaternion. */
  function ModeOf(option: int): (m: InterpolationMode)
    ensures m == EulerLerp <==> option == 0
  {
    if option == 0 then EulerLerp else QuatSlerp
  }

  class ModelSwitcher {
    const engine: Engine
    const models: seq<Model>

    var startRot: Quat
    var endRot: Quat
    var mode: InterpolationMode
    var isRotating: bool
    var rotationCW: bool
    /** Index into `models` of the model on display; None before any model was chosen. */
    var selected: Option<nat>

    ghost predicate Valid()
      reads this
    {
      selected.Some? ==> selected.value < |models|
    }

    /** Both orientations start at the identity, the mode at its first value and no rotation active. */
    constructor (engine: Engine, models: seq<Model>)
      ensures this.engine == engine && this.models == models
      ensures startRot == Identity && endRot == Identity && mode == EulerLerp
      ensures !isRotating && !rotationCW && selected == None
      ensures Valid()
    {
      this.engine := engine;
      this.models := models;
      startRot, endRot := Identity, Identity;
      mode := EulerLerp;
      isRotating, rotationCW := false, false;
      selected := None;
    }

    /**
     * The per-frame tick: while a rotate button is held, one rotation step in
     * the active direction; otherwise nothing changes. The flags are never
     * written here.
     */
    method Update(dt: real, side: int, axis: int, space: int)
      modifies this`startRot, this`endRot
      ensures !isRotating ==> startRot == old(startRot) && endRot == old(endRot)
      ensures isRotating ==> (startRot, endRot) == RotateSelected(engine, old(startRot), old(endRot), rotationCW, side, axis, space, dt)
      ensures isRotating == old(isRotating) && rotationCW == old(rotationCW) && mode == old(mode)
    {
      if isRotating {
        Rotate(rotationCW, side, axis, space, dt);
      }
    }

    /** A rotate button is pressed: rotation becomes active in direction `cw`, whatever was active before. */
    method StartRotation(cw: bool)
      modifies this`isRotating, this`rotationCW
      ensures isRotating && rotationCW == cw
      ensures startRot == old(startRot) && endRot == old(endRot) && mode == old(mode)
    {
      isRotating := true;
      rotationCW := cw;
    }

    /** A rotate button is released: the rotation stops only if it runs in that button's direction. */
    method EndRotation(cw: bool)
      modifies this`isRotating
      ensures old(rotationCW) == cw ==> !isRotating
      ensures old(rotationCW) != cw ==> isRotating == old(isRotating)
      ensures rotationCW == old(rotationCW)
      ensures startRot == old(startRot) && endRot == old(endRot) && mode == old(mode)
    {
      if rotationCW == cw {
        isRotating := false;
      }
    }

    /** One rotation step of the side the side selector names; the other side is not written. */
    method Rotate(cw: bool, side: int, axis: int, space: int, dt: real)
      modifies this`startRot, this`endRot
      ensures (startRot, endRot) == RotateSelected(engine, old(startRot), old(endRot), cw, side, axis, space, dt)
    {
      var left := side == 0;
      var world := space == 0;
      var index := AxisOf(axis);
      if index.None? {
        return;
      }
      var rot := if left then startRot else endRot;
      rot := RotateStep(engine, rot, cw, index.value, world, dt);
      if left {
        startRot := rot;
      } else {
        endRot := rot;
      }
    }

    /** The mode dropdown's listener: option 0 selects Euler interpolation, any other slerp. */
    method SelectMode(option: int)
      modifies this`mode
      ensures mode == ModeOf(option)
      ensures startRot == old(startRot) && endRot == old(endRot)
    {
      mode := ModeOf(option);
    }

    /**
     * The previewed orientation at slider value `alpha`. Computing it changes
     * none of the component's state.
     */
    method ApplyInterpolation(alpha: real) returns (r: Quat)
      ensures r == Interpolate(engine, mode, startRot, endRot, alpha)
    {
      r := Interpolate(engine, mode, startRot, endRot, alpha);
    }

    /** A text field of the start (`start`) or end orientation was edited. */
    method UpdateRotation(valueStr: string, start: bool, component: RotationComponent)
      modifies this`startRot, this`endRot
      ensures (startRot, endRot) == EditSelected(engine, old(startRot), old(endRot), valueStr, start, component)
      ensures mode == old(mode)
    {
      var rotation := if start then startRot else endRot;
      var parsed := engine.tryParse(valueStr);
      if parsed.None? {
        return;
      }
      rotation := EditComponent(engine, rotation, component, parsed.value);
      if start {
        startRot := rotation;
      } else {
        endRot := rotation;
      }
    }

    /**
     * Show the first model whose name matches `name` case-insensitively. A
     * null name, or a name no model has, leaves the selection as it was.
     */
    method SetModel(name: Option<string>)
      requires Valid()
      modifies this`selected
      ensures Valid()
      ensures name.None? ==> selected == old(selected)
      ensures name.Some? ==> selected == match FirstMatch(engine, models, name.value, 0)
                                        case Some(i) => Some(i)
                                        case None => old(selected)
      ensures startRot == old(startRot) && endRot == old(endRot) && mode == old(mode)
    {
      if name.None? {
        return;
      }
      var key := engine.toLower(name.value);
      var i := 0;
      while i < |models|
        invariant 0 <= i <= |models|
        invariant FirstMatch(engine, models, name.value, 0) == FirstMatch(engine, models, name.value, i)
        invariant selected == old(selected)
      {
        if key == engine.toLower(models[i].name) {
          selected := Some(i);
          return;
        }
        i := i + 1;
      }
    }
  }

  /**
   * Releasing the button of the other direction does not stop a rotation;
   * releasing the active direction's button does, and neither release
   * changes the direction. Pressing a second button overwrites the direction.
   */
  method ReleaseScenario(e: Engine, cw: bool) returns (afterOther: bool, afterSame: bool, direction: bool, afterRepress: bool)
    ensures afterOther && !afterSame && direction == cw
    ensures afterRepress
  {
    var s := new ModelSwitcher(e, []);
    s.StartRotation(cw);
    s.EndRotation(!cw);
    afterOther := s.isRotating;
    s.EndRotation(cw);
    afterSame := s.isRotating;
    direction := s.rotationCW;
    s.StartRotation(cw);
    s.StartRotation(!cw);
    s.EndRotation(cw);
    afterRepress := s.isRotating;
  }

  /** Once the rotation is stopped, ticks leave both orientations as they were. */
  method StoppedTickScenario(e: Engine, cw: bool, dt: real, side: int, axis: int, space: int) returns (startRot: Quat, endRot: Quat)
    ensures startRot == Identity && endRot == Identity
  {
    var s := new ModelSwitcher(e, []);
    s.StartRotation(cw);
    s.EndRotation(cw);
    s.Update(dt, side, axis, space);
    s.Update(dt, side, axis, space);
    startRot, endRot := s.startRot, s.endRot;
  }
}
