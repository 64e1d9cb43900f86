# Lunar lander flight state, in Dafny

This project models the game logic of a small 2-D "Lunar Lander" prototype
that was built on the `arcade` game framework and its pymunk physics engine.
The repository's own logic is a thin layer over those libraries. That layer
keeps three level-triggered arrow-key flags, holds the lander's fuel, tilt and
thrust, and decides once per frame which thrust force to hand to the physics
engine, burning one unit of fuel for each force.

There are two variants, and both are modelled:

- `MoonLaner.py` (module `MoonLander`, file `moon_lander.dfy`) is the main
  one. It has the `Lander` class, the `InputService` key flags, and the
  force selection in `GameWindow.on_update`. That selection has priority
  right, then left, then up. It applies a force only while fuel is positive,
  and each force costs one unit of fuel. The physics engine is replaced by a
  ghost log on `GameWindow`: `forces` holds every force passed to
  `apply_force`, and `ticks` holds the held keys at every frame, which is one
  entry per `step()`. `GameWindow.Valid()` ties both to the pure run function
  `Run`: the log and the fuel are exactly what the frames so far produce from
  a full tank of 1000, and fuel + |forces| = 1000.
- `lundarLanderBeta.py` (module `LanderBeta`, file `lander_beta.dfy`) has no
  fuel. Its rule pushes sideways only when exactly one of left and right is
  held, and otherwise pushes up if up is held. Its `Lander.move`/`notMove`
  set and clear the same three flags.

Module `Controls` (file `controls.dfy`) holds the values both variants share:
keys, the held-flag record, force vectors and `MoveForce = 65`. It also
defines `Press` and `Release`, the flag updates that `key_input`/`key_release`
and `move`/`notMove` perform. It proves that replaying any sequence of key
events leaves each flag equal to the net press state of its key.

Tilt is a `real` and fuel an unbounded `int`. The source starts the tilt
at `0.0`. `set_thrust` adds the whole number 5, and `set_rotation` adds
whatever number it is given. Python floats round where that number is not
exactly representable, and the model's exact arithmetic does not (see
"## Left out"). The source's Python integers do not wrap, so fuel needs no
width.

Facts about the code that the model keeps as they are:

- Only `set_rotation` caps the tilt at 45 (MoonLaner.py:187-190).
  `set_thrust` adds 5 for a horizontal thrust with no cap
  (MoonLaner.py:192-197). `HorizontalThrustIsUncapped` and
  `ThrustTiltPassesCap` prove that ten horizontal `set_thrust` calls from 0
  give 50.
- `on_update` calls neither setter (MoonLaner.py:119-143), so during play the
  thrust stays `(0, 0)` and the tilt stays `0.0`. `GameWindow.OnUpdate`
  leaves thrust, tilt and `hasCrashed` unchanged. No live code calls
  `set_rotation` or `set_thrust`. The only call of
  `set_thrust` is in the commented-out `apply_input` (MoonLaner.py:218).
  Both setters are still modelled as the lander's operations.
- The fuel display shows `fuel/10` as text while drawing (MoonLaner.py:280).
  This is left out with the rest of rendering.

## Model

| member | source | states |
|---|---|---|
| `Controls.Press` | MoonLaner.py:220-226 | a key press raises exactly the flag of its arrow key; every other flag, and every flag for a non-arrow key, keeps its value |
| `Controls.Release` | MoonLaner.py:228-234 | a key release lowers exactly the flag of its arrow key; an unknown key, or a key that is not held, leaves the flags unchanged |
| `Controls.PressIdempotent` | MoonLaner.py:220-226 | pressing the same key twice has the effect of pressing it once |
| `Controls.ReleaseIdempotent` | MoonLaner.py:228-234 | releasing the same key twice has the effect of releasing it once |
| `Controls.PressReleaseRestores` | MoonLaner.py:220-234 | pressing and then releasing a key that was not held restores the flags |
| `Controls.ReplayIsNetState` | MoonLaner.py:220-234 | after any sequence of key events, a flag is set iff some press of its key has no later release, or the key was held at the start and never released |
| `MoonLander.RotateBy` | MoonLaner.py:187-190 | set_rotation leaves the tilt at the smaller of old + delta and 45, so never above 45; there is no lower bound |
| `MoonLander.TiltFor` | MoonLaner.py:192-196 | set_thrust adds exactly 5 to the tilt when the thrust's x is non-zero, of either sign, with no cap; otherwise the tilt is unchanged |
| `MoonLander.RotationSaturates` | MoonLaner.py:187-190 | k set_rotation(delta) calls with delta >= 0 from a tilt <= 45 give min(tilt + k*delta, 45) |
| `MoonLander.ClampHoldsAfterTenSteps` | MoonLaner.py:187-190 | ten set_rotation(5) calls from 0 leave the tilt at 45, not 50 |
| `MoonLander.HorizontalThrustIsUncapped` | MoonLaner.py:192-197 | n horizontal set_thrust calls add exactly 5n to the tilt, whatever its size |
| `MoonLander.ThrustTiltPassesCap` | MoonLaner.py:192-197 | ten horizontal set_thrust calls from 0 tilt the lander to 50, past the 45 that set_rotation enforces |
| `MoonLander.Lander.constructor` | MoonLaner.py:169-173 | a new lander has thrust (0,0), tilt 0, fuel 1000 and has not crashed |
| `MoonLander.Lander.GetFuel` | MoonLaner.py:175-176 | returns the fuel, which for a valid lander lies in 0..1000 |
| `MoonLander.Lander.GetRotation` | MoonLaner.py:178-179 | returns the stored tilt; a getter reads the lander and changes nothing |
| `MoonLander.Lander.GetThrust` | MoonLaner.py:181-185 | returns (0,0) when the fuel is exactly 0, and otherwise the stored thrust; changes nothing |
| `MoonLander.Lander.SetRotation` | MoonLaner.py:187-190 | the new tilt is RotateBy(old tilt, delta); fuel, thrust and the crash flag are unchanged |
| `MoonLander.Lander.SetThrust` | MoonLaner.py:192-197 | always stores the thrust; the new tilt is TiltFor(old tilt, thrust); fuel and the crash flag are unchanged |
| `MoonLander.InputService.constructor` | MoonLaner.py:202-205 | a new input service holds no key |
| `MoonLander.InputService.KeyInput` | MoonLaner.py:220-226 | the new flags are Press(old flags, key) |
| `MoonLander.InputService.KeyRelease` | MoonLaner.py:228-234 | the new flags are Release(old flags, key) |
| `MoonLander.ChooseForce` | MoonLaner.py:121-132 | a frame applies a force iff fuel > 0 and some key is held; the force is one of (65,0), (-65,0), (0,65); it points right iff right is held, left iff left but not right is held, up iff neither horizontal key is held |
| `MoonLander.FuelAfter` | MoonLaner.py:121-132 | a frame burns exactly one unit of fuel iff it applies a force, and none otherwise; fuel never goes below 0 |
| `MoonLander.RightWinsTie` | MoonLaner.py:121-128 | with both horizontal keys held and fuel left, the force is always (65,0) |
| `MoonLander.RunAccounting` | MoonLaner.py:121-132 | over any run of frames from fuel >= 0, fuel stays >= 0 and falls by exactly the number of forces applied; there is at most one force per frame and each is a thrust |
| `MoonLander.HoldDrains` | MoonLaner.py:121-132 | holding the same keys for n frames from fuel f applies one thrust per frame for min(n, f) frames, then nothing, and leaves max(f - n, 0) fuel |
| `MoonLander.FullTankHeldRight` | MoonLaner.py:121-132 | from a full tank, holding right for 1001 frames gives 1000 pushes of (65,0) and an empty tank; the first 1000 frames already empty it, and a frame from an empty tank applies nothing, so the 1001st frame applies nothing |
| `MoonLander.IdleRunIsInert` | MoonLaner.py:121-132 | frames with no key held apply no force and burn no fuel |
| `MoonLander.UpThenRelease` | MoonLaner.py:129-132 | up held for 5 frames from 100 fuel gives five pushes of (0,65) and leaves 95 fuel; after the release, any number of further frames adds no force and burns no fuel |
| `MoonLander.GameWindow.constructor` | MoonLaner.py:56-68 | a new window has a fresh lander with a full tank, no key held and an empty force log |
| `MoonLander.GameWindow.OnKeyPress` | MoonLaner.py:112-114 | a key press goes to the input service's key_input |
| `MoonLander.GameWindow.OnKeyRelease` | MoonLaner.py:116-117 | a key release goes to the input service's key_release |
| `MoonLander.GameWindow.OnUpdate` | MoonLaner.py:119-143 | one frame applies ChooseForce(held keys, fuel), appends it to the force log, sets the fuel to FuelAfter(held keys, fuel) and records one physics step; thrust, tilt and the crash flag are unchanged, and fuel + forces applied = 1000 is kept |
| `LanderBeta.BetaChooseForce` | lundarLanderBeta.py:169-179 | left alone gives (-65,0) and right alone gives (65,0); with both or neither horizontal key held, up gives (0,65) and otherwise no force; a force is applied iff exactly one horizontal key or up is held |
| `LanderBeta.BetaIsSymmetric` | lundarLanderBeta.py:169-179 | swapping the left and right keys mirrors the chosen force |
| `LanderBeta.MainRuleIsNotSymmetric` | MoonLaner.py:121-128 | the main variant's rule is not symmetric: with both horizontal keys held, swapping them does not mirror its force |
| `LanderBeta.VariantsAgreeWithoutConflict` | lundarLanderBeta.py:169-179 | with fuel left and not both horizontal keys held, both variants choose the same force |
| `LanderBeta.VariantsDifferOnConflict` | lundarLanderBeta.py:169-179 | with both horizontal keys held, the main variant pushes right and this variant does not |
| `LanderBeta.Lander.Move` | lundarLanderBeta.py:206-212 | the new flags are Press(old flags, key): only the matching arrow flag is raised |
| `LanderBeta.Lander.NotMove` | lundarLanderBeta.py:214-220 | the new flags are Release(old flags, key): only the matching arrow flag is lowered |

## Left out

- The window and event loop are left out: the `arcade.Window` subclasses, `setup`, `main`, `arcade.run`, and the second `main()` call at lundarLanderBeta.py:226-227. They are framework plumbing.
- Rendering is left out: `on_draw`, `OutputService.draw_lander` (turning the sprite), `draw_fuel` (the float text `fuel/10`) and `draw_altitude` (float `center_y - 44.5`). They draw; they decide nothing.
- Tilemap and image loading is left out: `OutputService.setup` (MoonLaner.py:247-268) and lundarLanderBeta.py:86-106. These are file I/O.
- Physics engine internals are left out: pymunk setup, gravity, damping, friction, mass and speed limits, and what `apply_force` and `step()` do to the body. These are foreign library calls. `apply_force` is modelled only as an entry in the ghost force log. `step()` is modelled as one entry in the ghost frame log and touches no lander state.
- The `modifiers` argument of the key handlers and the `delta_time` argument of `on_update` (MoonLaner.py:119) are dropped, because no handler reads them. Key codes are modelled as the three arrow keys plus `Other(code)` for every other key.
- The broken dispatch of lundarLanderBeta.py is not modelled. `on_key_press`/`on_key_release` call `move()`/`notMove()` without the key (lundarLanderBeta.py:157,162), which raises at run time. The flags are also written on the lander (lundarLanderBeta.py:206-220) but read from the window (lundarLanderBeta.py:169-177). The selection rule and the flag updates are modelled separately.
- LanderBeta.Lander.constructor: the source's `__init__` sets no flags (lundarLanderBeta.py:203-204), so the model leaves a new lander's flags unspecified. In Python, reading them before a `move` would raise.
- The beta window's own flag fields and its physics wiring (lundarLanderBeta.py:58-82) are not modelled as a class. Only its selection rule is, as a function of the three flags, because it changes no state except through `apply_force`.
- Commented-out code is left out: `apply_input` (MoonLaner.py:207-218) and the `get_thrust`/`apply_force` path (MoonLaner.py:134-137).
- MoonLander.RotateBy, MoonLander.Lander.SetRotation: the model adds the tilt delta exactly, as a `real`. Python adds floats and rounds; three `set_rotation(0.1)` calls from 0.0 give 0.30000000000000004. The model therefore matches the source only for deltas that floats represent exactly, such as whole numbers or 0.5. Floating-point rounding is not modelled.
- Crash handling is left out: `_has_crashed` is stored but no code sets it or reacts to it. There is no tilt decay or reset and no collision outcome in the source, so none is modelled.
- lunarlanderAlpha.py is not part of this model. It is window boilerplate with no game logic.
