# ModelSwitcher orientation core, in Dafny

A model of the `ModelSwitcher` component of Rotation-Vis, a Unity scene that
shows a 3D model at a "start" orientation, an "end" orientation and an
orientation interpolated between the two, either by lerping Euler angles or by
quaternion slerp. The model covers the component's state and the logic that
updates it:

- the two orientations `startRot` and `endRot`, as quaternions of four reals,
  both the identity at creation;
- the interpolation mode, picked from the mode dropdown;
- the rotate buttons' two flags, `isRotating` and `rotationCW`: pressing a
  button starts rotation in its direction, releasing a button stops it only
  when that direction is the active one;
- the per-frame tick, which turns the selected orientation by 60 degrees per
  second about a world axis (composition on the left) or by incrementing one
  Euler angle (local space);
- edits typed into the seven text fields of an orientation: text that does not
  parse is ignored, a quaternion field overwrites one stored component with no
  renormalisation, an Euler field overwrites one Euler angle and converts back;
- the previewed orientation for a slider value;
- the model lookup by case-insensitive name, first match wins.

Files:

- `wrappers.dfy` — `Option`.
- `unity_math.dfy` — `Vec3`, `Quat`, `Axis`, the Vector3 indexer's valid
  indices, `Vector3.Lerp` (which clamps its parameter to [0, 1]) and the
  `Engine` record of opaque engine calls.
- `rotation.dfy` — one rotation step, one field edit and the interpolation,
  as functions on values, with the lemmas relating them.
- `model_switcher.dfy` — the `ModelSwitcher` class with its fields and
  methods, the functions that specify which orientation a step or an edit
  writes, the model lookup, and two client scenarios over the rotate buttons.

The engine calls with no visible source (`Quaternion.Euler` and the
`eulerAngles` setter, the `eulerAngles` getter, `Quaternion.AngleAxis`,
`Quaternion.Slerp`, quaternion `*`, `float.TryParse`, `string.ToLower`) are
fields of the `Engine` value given to the constructor, and nothing is assumed
of how they compute. One assumption is built into the record itself: the
`eulerAngles` setter (used by the Euler-field edits) and `Quaternion.Euler`
(used by the local-space rotation step) are the same conversion, the single
field `fromEuler`, as the engine defines the setter. `Rotation.LocalStepIsEulerEdit`
rests on that identification; every other property holds for any
implementation of the engine calls.
The frame time, the dropdown values (side, axis, space, mode) and the slider
value are parameters of the methods that read them.

## Model

| member | source | states |
|---|---|---|
| `UnityMath.AxisOf` | Assets/ModelSwitcher.cs:105-119 | an axis selector value denotes an axis exactly when it is 0, 1 or 2 (X, Y, Z); any other index is one the Vector3 indexer rejects |
| `UnityMath.Vec3.With` | Assets/ModelSwitcher.cs:118-119 | writing one Euler angle sets that component to the value and keeps the other two |
| `UnityMath.UnitAxis` | Assets/ModelSwitcher.cs:113-114 | the rotation axis has 1 at the selected index and 0 elsewhere |
| `UnityMath.Quat.With` | Assets/ModelSwitcher.cs:236-251 | writing one quaternion component sets it to the value and keeps the other three |
| `UnityMath.Lerp` | Assets/ModelSwitcher.cs:199 | Euler-triple lerp: parameter at or below 0 gives the first triple, at or above 1 the second, 0.5 the average, and every component lies between the two ends' components |
| `Rotation.RotateStep` | Assets/ModelSwitcher.cs:111-121 | world space composes AngleAxis(increment, unit axis) on the left of the orientation; local space converts a triple equal to the Euler view except on the chosen axis, which holds that angle plus the increment |
| `Rotation.Interpolate` | Assets/ModelSwitcher.cs:195-202 | the mode dispatch: Euler mode converts the lerp of the two Euler views back, quaternion mode is the slerp of the two stored orientations |
| `Rotation.Increment` | Assets/ModelSwitcher.cs:115-119 | a tick turns by 60·dt degrees, negated for clockwise |
| `Rotation.EditComponent` | Assets/ModelSwitcher.cs:219-252 | a quaternion-field edit sets exactly that component and keeps the other three (no renormalisation); an Euler-field edit converts an Euler triple equal to the current Euler view except on the edited axis, which holds the value |
| `Rotation.LocalStepIsEulerEdit` | Assets/ModelSwitcher.cs:116-121 | a local-space tick equals an Euler-field edit of the same axis with the current angle plus the increment |
| `Rotation.ClockwiseReversesTime` | Assets/ModelSwitcher.cs:111-121 | a clockwise tick equals a counter-clockwise tick of negated duration, in world and local space |
| `Rotation.WorldStepAboutY` | Assets/ModelSwitcher.cs:111-115 | one second of world-space rotation about Y composes AngleAxis(60, (0,1,0)) on the left of any orientation |
| `Rotation.WorldStepSameIncrement` | Assets/ModelSwitcher.cs:113-115 | for any two orientations, a world-space tick composes one and the same increment on the left of each: the increment does not depend on the current orientation |
| `Rotation.QuatEditLastWins` | Assets/ModelSwitcher.cs:236-251 | writing the same quaternion field twice leaves only the second value |
| `Rotation.QuatEditsCommute` | Assets/ModelSwitcher.cs:236-251 | edits of two different quaternion fields commute |
| `Rotation.QuatEditDoesNotNormalise` | Assets/ModelSwitcher.cs:236-238 | setting x of the identity to 0.5 gives (0.5, 0, 0, 1), of squared length 1.25 |
| `Rotation.EulerEditSeesOnlyEulerView` | Assets/ModelSwitcher.cs:213-235 | an Euler-field edit of two orientations with the same Euler view gives the same result |
| `Rotation.EulerInterpolationEnds` | Assets/ModelSwitcher.cs:195-199 | Euler mode with parameter at or below 0 shows the start's Euler view converted back, at or above 1 the end's |
| `Rotation.EulerInterpolationMidpoint` | Assets/ModelSwitcher.cs:195-199 | Euler mode half way between Euler views (0,0,0) and (0,0,180) converts (0,0,90) |
| `Rotation.EulerInterpolationBetween` | Assets/ModelSwitcher.cs:197-199 | Euler mode converts a triple each of whose angles lies between the two ends' angles |
| `Switcher.NameMatches` | Assets/ModelSwitcher.cs:273 | a name matches an entry exactly when their lower-cased forms are equal; an identical name always matches |
| `Switcher.FirstMatch` | Assets/ModelSwitcher.cs:272-274 | the lookup returns an index whose name matches case-insensitively with no match before it, and returns nothing exactly when no entry matches |
| `Switcher.LookupIgnoresCase` | Assets/ModelSwitcher.cs:273 | two names with the same lower-cased form select the same entry |
| `Switcher.FirstMatchIsUnique` | Assets/ModelSwitcher.cs:272-280 | a matching index with no earlier match is the one selected |
| `Switcher.RotateSelected` | Assets/ModelSwitcher.cs:102-126 | a step writes only the side the side selector names (0 = start), by the world or local step the space selector names; with an axis index outside 0..2 neither side changes |
| `Switcher.EditSelected` | Assets/ModelSwitcher.cs:210-257 | text that fails to parse changes neither orientation; otherwise only the targeted orientation is written, with the parsed value in the edited field |
| `Switcher.ModeOf` | Assets/ModelSwitcher.cs:150-151 | dropdown option 0 selects Euler interpolation and every other option slerp |
| `Switcher.ModelSwitcher.constructor` | Assets/ModelSwitcher.cs:67-72 | both orientations are the identity, the mode is Euler, no rotation is active and no model is selected |
| `Switcher.ModelSwitcher.Update` | Assets/ModelSwitcher.cs:80-86 | with no rotation active nothing changes; otherwise one step in the active direction; the flags and mode are never written |
| `Switcher.ModelSwitcher.StartRotation` | Assets/ModelSwitcher.cs:88-92 | afterwards rotation is active in the given direction, whatever the prior flags; the orientations are unchanged |
| `Switcher.ModelSwitcher.EndRotation` | Assets/ModelSwitcher.cs:94-100 | rotation stops when the given direction is the active one; otherwise the flags are unchanged; the direction is never written |
| `Switcher.ModelSwitcher.Rotate` | Assets/ModelSwitcher.cs:102-131 | the new orientation pair is `RotateSelected` of the old one |
| `Switcher.ModelSwitcher.SelectMode` | Assets/ModelSwitcher.cs:150-153 | the mode becomes the one the option selects; the orientations are unchanged |
| `Switcher.ModelSwitcher.ApplyInterpolation` | Assets/ModelSwitcher.cs:193-202 | the preview is `Interpolate` of the current mode, orientations and slider value; no state changes |
| `Switcher.ModelSwitcher.UpdateRotation` | Assets/ModelSwitcher.cs:210-260 | the new orientation pair is `EditSelected` of the old one; the mode is unchanged |
| `Switcher.ModelSwitcher.SetModel` | Assets/ModelSwitcher.cs:267-283 | a null name keeps the selection; otherwise the first case-insensitive match is selected, or the selection is kept when none matches; the selection stays a valid index |
| `Switcher.ReleaseScenario` | Assets/ModelSwitcher.cs:88-100 | releasing the other direction's button keeps the rotation running, releasing the active one stops it, and a second press overwrites the direction |
| `Switcher.StoppedTickScenario` | Assets/ModelSwitcher.cs:80-100 | after a press and the matching release, ticks leave both orientations at the identity |

## Left out

- The user-interface wiring: listener registration, the dropdown and slider reads, the slider label text, and the refresh of the seven text fields after a change (`InitRotationUI`, `SetEulerFields`, `SetQuatFields`, `Start`, `OnModelDropdownUpdated`). The dropdown and slider values are method parameters instead.
- Scene-graph effects: destroying the shown model and instantiating the chosen prefab in `SetModel`, and the writes of the preview and axis-gizmo transforms in `ApplyInterpolation`. The model keeps the selected index and returns the previewed orientation.
- The re-evaluation of the preview after a step, an edit or a mode change: it only writes transforms, and `ApplyInterpolation` gives its value for the current state.
- The engine's rotation library, float parser and lower-casing: kept opaque, so the slerp endpoints, the Euler round trips and gimbal behaviour are not stated. The engine's frame time is the `dt` parameter.
- Float arithmetic is modelled on reals: no rounding, overflow or NaN.
- An axis index outside 0..2 throws an out-of-range error in the engine's Vector3 indexer; the model keeps only its effect on state, which is that nothing is written.
- A model entry whose name is null throws in the lower-casing; entry names are plain strings here.
- The interpolation parameter is not clamped by the component itself: the slider bounds it, `Vector3.Lerp` clamps it in Euler mode, and slerp receives it as given.
- Orientations are not kept normalised: a quaternion-field edit can leave a non-unit quaternion, as the component does.
