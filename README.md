# Orbit simulation core, modelled in Dafny

This project models the simulation core of an interactive two-body orbit
viewer (a React application, `src/App.js`). A body orbits a sun fixed at the
origin under one of four selectable force laws: Newtonian gravity, a modified
power law, a relativistic correction, or Coulomb's law. Once per animation
frame the canvas component runs two steps:

- `update()` advances the body by one semi-implicit Euler step and appends
  its new position to a fading trail of at most 5000 points;
- `draw()` places the sun, the trail and the body on a 600×600 canvas
  through a camera that keeps either the sun or the body centred.

The simulation is rebuilt from its initial state only when the force law,
`gm`, the exponent or one of the charges changes. Speed, zoom and camera
mode reach the running loop through refs, without a restart.

Modules, one per part of the core:

- `MathModel` (`math_model.dfy`) models the host `Math.sqrt`, and `Math.pow`
  with non-integer exponents. The environment supplies them as a `MathLib`
  value. `Sound` states the facts the model relies on throughout: the square
  root is a non-negative root, and a power of a positive base is positive.
  One lemma, `FadeNonDecreasing`, additionally assumes that `pow(·, 0.7)` is
  monotone (`MonotoneOnBase`).
- `Physics` (`physics.dfy`) holds the force-law switch (`Accel` and one
  function per law), the radial strength of each law, and the step
  (`Step`, `Tick`).
- `Trail` (`trail.dfy`) holds the bounded FIFO trail (`Push`), the fade
  recomputation (`Refade`), and the trail that many ticks build (`TrailOf`).
- `Camera` (`camera.dfy`) holds the world-to-canvas mapping and the frame
  description (`Scene`, `SceneOf`).
- `Parameters` (`parameters.dfy`) holds the application's controls, the reset
  button, and the rule that decides when the simulation restarts.
- `Canvas` (`canvas.dfy`) has two classes. `Simulation` holds the
  state that `update()` changes in place (`x`, `y`, `vx`, `vy`, `r`,
  `trail`). `OrbitCanvas` holds the refs, the effect's dependency tuple and
  the simulation it owns.

The force-law selector is a string in the source. Here it is the datatype
`Potential`, with an `Other(name)` case for any string that names none of
the four laws. The subset type `Selector` excludes an `Other` carrying one of
the four labels, so a label always denotes its own law, as the string
comparison of the switch does. `Parse` maps the four labels of the
`potentials` table to their laws.

Reset leaves the selected law unchanged; it restores only the numeric
parameters and the camera mode. The simulation is rebuilt only when a member
of the effect's dependency list actually changes, so a reset restarts it only
if `gm`, the exponent or a charge was away from its default
(`ResetParameters`, `ResetIsStartupIff`, `ResetRestartsIff`).

## Model

| member | source | states |
|---|---|---|
| Physics.Parse | src/App.js:5-10 | every selector string parses to a law whose label is that same string, so no selector value is lost or altered by parsing |
| Physics.ParseLabel | src/App.js:5-10 | parsing a law's label gives the law back, for every law a selector can denote |
| Physics.NewtonianAccel | src/App.js:396-399 | `-gm * p / r^3`, computed per coordinate as in the source, is the position scaled by `-gm / r^3` |
| Physics.ModifiedAccel | src/App.js:400-403 | `-gm * exponente * p / pow(r, exponente + 1)` is the position scaled by `-gm * exponente / pow(r, exponente + 1)` |
| Physics.RelativisticAccel | src/App.js:404-407 | `-gm * p / r^3 + 3 * beta * p / r^5` (beta = 0.01) is the position scaled by `-gm / r^3 + 3 * beta / r^5` |
| Physics.CoulombAccel | src/App.js:408-411 | `k * q1 * q2 * p / r^3` (k = 1) is the position scaled by `k * q1 * q2 / r^3` |
| Physics.Accel | src/App.js:395-414 | the force-law switch: for every law, including an unrecognised one, the acceleration equals the position times the law's radial strength (`-gm/r^3`, `-gm*exponente/pow(r, exponente+1)`, `-gm/r^3 + 3*beta/r^5`, `k*q1*q2/r^3`, or 0) |
| Physics.AccelIsCentral | src/App.js:395-414 | every law is a central force: the acceleration is parallel to the position |
| Physics.NewtonianAttracts | src/App.js:397-398 | with `gm > 0`, the Newtonian acceleration points toward the sun (negative radial component) |
| Physics.ModifiedAttracts | src/App.js:401-402 | with `gm > 0` and a positive exponent, the modified-power acceleration points toward the sun |
| Physics.RelativisticSign | src/App.js:405-406 | the relativistic acceleration points toward the sun exactly when `gm * r^2 > 3 * beta`, and away exactly when `gm * r^2 < 3 * beta` |
| Physics.CoulombSign | src/App.js:409-410 | the Coulomb acceleration points away from the sun exactly when `q1 * q2 > 0` and toward it exactly when `q1 * q2 < 0`; it vanishes when a charge is zero |
| Physics.UnknownLawNoForce | src/App.js:412-413 | an unrecognised law gives the acceleration (0, 0) |
| Physics.Step | src/App.js:416-419 | one semi-implicit Euler step, which `Unstep` undoes for the same acceleration and step |
| Physics.StepOfUnstep | src/App.js:416-419 | undoing and then redoing a step gives the state back, so the step is a bijection for a fixed acceleration and step |
| Physics.StepSecondOrder | src/App.js:416-419 | velocity first: `v' = v + a*dt`; the position then moves by `v*dt + a*dt^2`, because it uses the updated velocity |
| Physics.Tick | src/App.js:390-419 | one tick is the step with the switch's acceleration and `dt = 12 * speed`; it is undone by `Unstep` with the same acceleration and step |
| Physics.UnknownLawDrifts | src/App.js:412-419 | under an unrecognised law a tick keeps the velocity and moves the position by `v * 12 * speed` |
| MathModel.SqrtOfSquare | src/App.js:382 | a sound square root of `a * a` is `a` for `a >= 0`, so the starting radius `sqrt(200*200 + 0*0)` is 200 |
| Trail.Push | src/App.js:421-424 | a push grows the trail by one until it reaches 5000 points and keeps its length after that; the new point is last, and the points before it are the old trail without its oldest point when the trail was full |
| Trail.PushFifo | src/App.js:421-424 | after a push, a trail within capacity has length `min(old + 1, 5000)`; the new point is last; below capacity the old points are kept as they were; at capacity exactly the oldest point is dropped and the rest keep their order |
| Trail.FadeArg | src/App.js:425-427 | the fade argument `i / n` lies in [0, 1) and is 0 for the oldest point |
| Trail.FadeArgIncreasing | src/App.js:425-427 | the fade argument strictly increases with the index |
| Trail.Refade | src/App.js:425-427 | recomputing the fades keeps the length and every position; point `i` of `n` gets opacity `pow(i / n, 0.7)` |
| Trail.Record | src/App.js:421-427 | one tick's trail update: the positions slide by one (append the new position, drop the oldest beyond 5000), and point `i` of the new length `n` gets opacity `pow(i / n, 0.7)` |
| Trail.FadeNonDecreasing | src/App.js:425-427 | if `pow(·, 0.7)` is monotone, the opacities never decrease from the oldest point to the newest |
| Trail.TrailIsWindow | src/App.js:421-427 | after any number of ticks from an empty trail, the trail holds exactly the most recent positions, at most 5000 of them, oldest first |
| Camera.Transform | src/App.js:441-453 | the sun-centred and body-centred mappings, each invertible for a non-zero zoom (`Untransform` recovers the world point) |
| Camera.TransformOfUntransform | src/App.js:443-453 | for a non-zero zoom every canvas point is the image of the world point `Untransform` gives |
| Camera.SunPinned | src/App.js:455 | in sun-centred mode the sun, `transform((0,0))`, lands on (300, 300) wherever the body is |
| Camera.BodyPinned | src/App.js:449-452 | in body-centred mode the body's own position maps to (300, 300) |
| Camera.ModesDifferByShift | src/App.js:443-453 | the two modes differ only by the shift `zoom * body` |
| Camera.TransformScalesDifferences | src/App.js:443-453 | in both modes, differences between world points are scaled by `zoom` |
| Camera.SceneOf | src/App.js:455-494 | in sun-centred mode the sun disc sits on the canvas centre, in body-centred mode the body disc does; the glow is wider than the disc exactly for a positive zoom; one stroke per consecutive pair of trail points, between their camera images, with the newer point's opacity |
| Camera.PlanetPosition | src/App.js:481 | the planet is drawn at the camera image of the body in both modes: the shortcut (300, 300) of body-centred mode agrees with the transform |
| Parameters.Startup | src/App.js:13-20 | the controls start with the Newtonian law selected |
| Parameters.ResetParameters | src/App.js:23-31 | reset sets gm = 1, exponent = 1.7, speed = 1, zoom = 1, centerOnSun = false, q1 = q2 = 1, i.e. the start-up values, and keeps the selected law |
| Parameters.ResetIdempotent | src/App.js:23-31 | resetting twice is resetting once |
| Parameters.ResetIsStartupIff | src/App.js:13-31 | a reset restores the complete start-up state exactly when the Newtonian law is selected |
| Parameters.LawOf | src/App.js:506 | the simulation's dependency tuple (potential, gm, exponente, q1, q2) carries the selected law |
| Parameters.Restarts | src/App.js:506 | the dependency tuple differs, which holds exactly when the potential, gm, the exponent, q1 or q2 changes |
| Parameters.LiveParametersKeepState | src/App.js:347-353 | changing only the speed, zoom or camera mode never restarts the simulation |
| Parameters.ResetRestartsIff | src/App.js:23-31 | a reset restarts the simulation exactly when gm, the exponent or a charge was away from its default |
| Canvas.InitialBody | src/App.js:380-385 | the start state is at (200, 0) with no velocity along x |
| Canvas.InitialOrbitIsCircular | src/App.js:380-385 | with a sound square root the starting radius is 200 and `vy = sqrt(gm / 200) >= 0` with `vy^2 = gm / 200`; the Newtonian pull at the start equals the centripetal acceleration `vy^2 / 200` of a circular orbit |
| Canvas.Simulation.constructor | src/App.js:380-387 | a new run starts at the initial body, with radius `sqrt(200^2)` and an empty trail |
| Canvas.Simulation.Update | src/App.js:390-428 | `r` becomes the distance before the step; the new body state is `Tick` of the old one at `dt = 12 * speed`; the trail becomes the old trail with the new position pushed and all fades recomputed; the trail length is `min(old + 1, 5000)` and its last point is the new position |
| Canvas.Simulation.Integrate | src/App.js:416-419 | the four in-place updates (velocity first, then position with the new velocity) leave the body state equal to `Step` of the old state |
| Canvas.Simulation.PushPoint | src/App.js:421-424 | the trail becomes `Push(old trail, (x, y, 1))`, in place, and stays within 5000 points |
| Canvas.Simulation.Refresh | src/App.js:425-427 | the in-place loop over the trail leaves it equal to `Refade(old trail)`: same points, opacity `pow(i / n, 0.7)` at index `i` |
| Canvas.Simulation.Draw | src/App.js:441-495 | the frame is `SceneOf` the current trail and body: the sun disc at the sun's image (glow radius `20*zoom`, disc radius `10*zoom`); the body disc at the body's image (`12*zoom`, `5*zoom`); one stroke per consecutive pair of trail points, between their images, with the newer point's opacity |
| Canvas.OrbitCanvas.constructor | src/App.js:341-387 | mounting copies speed, zoom and camera mode into the refs, records the dependency tuple, and starts a fresh simulation in its initial state |
| Canvas.OrbitCanvas.Receive | src/App.js:341-506 | new controls always update the three refs; the simulation is replaced by a fresh initial one exactly when the dependency tuple changed, and is otherwise left untouched |
| Canvas.OrbitCanvas.Animate | src/App.js:498-502 | one frame is one `Update` at the ref's speed (new distance, `Tick` of the body, `Record` of the trail) followed by the complete frame `SceneOf` the new trail and body with the refs' zoom and camera mode |

## Left out

- Layout, sliders, styling and the LaTeX equation text (`src/App.js:34-338`, `508-515`): presentation with no behaviour to verify.
- The canvas calls in `draw()` (clearing, fills, gradients, arcs, strokes): these are browser APIs. `Draw` returns the frame as a `Scene` value (positions, radii, stroke opacities); colours and gradient stops are not modelled.
- The starfield (`src/App.js:357-369`): it is built from `Math.random` and is decorative only.
- The `requestAnimationFrame` loop and its cancellation (`src/App.js:498-505`): this is host scheduling. `Animate` models one frame, and `TrailIsWindow` covers any number of ticks. The model has no process that keeps running.
- Floating point: numbers are Dafny reals. Rounding, overflow, `Infinity` and `NaN` are not modelled, and neither is React's `Object.is` comparison of dependencies (NaN, -0).
- `Math.pow(r, 3)` and `Math.pow(r, 5)` are exact products here. Non-integer `Math.pow` and `Math.sqrt` are the environment's `MathLib` functions, known only through `Sound`. So the concrete values of the modified-power and relativistic terms are not modelled.
- Numerical-accuracy properties (orbit closure, precession, energy drift): they depend on real floating-point behaviour.
- Canvas.Simulation.Update: requires the acceleration to be defined at the current distance: a positive distance for the Newtonian, relativistic and Coulomb laws, and a positive `pow(r, exponente + 1)` for the modified law. The source divides by these without a guard and would produce non-finite values at the sun. That path is not modelled.
- Physics.Accel: requires the same definedness, for the same reason.
- Trail.FadeNonDecreasing: assumes that the environment's `pow(·, 0.7)` is monotone. `Sound` does not promise it.
- Canvas.InitialOrbitIsCircular: stated for `gm >= 0` (the slider's range). For a negative `gm` the source takes the square root of a negative number.
