# PixAura particle core in Dafny

PixAura is a browser demo. A cloud of a few thousand particles forms one of six
shapes: spiral, heart, flower, saturn, fireworks or galaxy. A webcam hand
steers it. A pinch makes the cloud pulse and cycles its colours. A peace sign
switches to the next shape, at most once every 2000 ms. The palm position
tilts the cloud, and the cloud always spins slowly.

This project models the logic of `app.js` and proves properties about it:

- **`Templates`**: the `templates` table (colour, particle count) and its key
  order. The key order is the cycle that peace signs walk through.
- **`Geometry`**: `getTemplatePosition`. It has an exact model of the index
  partitioning: saturn's 30% / 70% split and the five fireworks bursts of
  `total / 5`, with JavaScript `%` written out through its truncated
  quotient. It also has a shape lemma for each template.
- **`Gesture`**: the decision made by `onHandResults`:
  - the pinch test;
  - the finger count;
  - the debounced peace sign;
  - the status outcomes in priority order.

  It also has lemmas over whole runs of frames: the spacing of switches, the
  template reached, and the last stamp.
- **`Motion`**: the arithmetic of one `animate` frame:
  - the pinch modulation;
  - the rotation following the palm, plus the spin;
  - the spring/damping step of each particle;
  - the hue cycle.

  There are convergence lemmas for the rotation and for the particles.
- **`App`**: the demo's global state as the class `ParticleApp`, with flat
  `array<real>` position and colour buffers. Its methods are:
  - `CreateParticles`, which rebuilds the buffers;
  - `OnHandResults`, which applies `Gesture.Interpret` and rebuilds on a switch;
  - `Animate`, one frame, which rewrites the buffers in place.

  Each method is proved against the functions in the modules above.

External inputs are parameters:

- `Math.sin`, `Math.cos`, `Math.acos` and `Math.PI` are a `Trig` record. The
  shape lemmas assume only what they need: `sin² + cos² = 1`, or that sine and
  cosine stay in [-1, 1].
- The `Math.random()` values each particle draws are a `Draws` record. They
  are supplied per particle as `draws(i)`.
- `Date.now()` is an integer `now`.
- `new THREE.Color(hex)` and `setHSL(h, 1, 0.5)` are the functions `colorOf`
  and `hsl`.

Some behaviour of `app.js` that a reader might expect otherwise; the model
follows the code:

- Particles do not approach their targets monotonically. `DisplacementCanGrow`
  shows this. What holds is that a quadratic energy shrinks by exactly 0.95 per
  frame, and that this energy bounds the displacement (`Converges`).
- The initial velocities lie in the half-open range [-0.01, 0.01).
- The debounce comparison is a strict `>`. From the initial stamp 0, no peace
  sign at or before 2000 ms switches (`EarlyPeaceIgnored`).
- `getTemplatePosition` returns the origin for a name outside the table
  (app.js:155-156), but no particle is ever built from such a name.
- A rebuild creates a new, unrotated `THREE.Points`, so the rotation goes
  back to 0.
- `currentHand` is recorded before the gesture is classified.
- When no pinch is active, colours keep whatever they last held. They do not
  revert to the template colour.

## Model

| member | source | states |
|---|---|---|
| Templates.Lookup | app.js:7-14 | a key maps to the template whose key it is; any other string maps to nothing |
| Templates.KeysDistinct | app.js:7-14 | distinct templates have distinct keys; looking up a template's key gives that template |
| Templates.Color | app.js:7-14 | every template colour is a 24-bit RGB value |
| Templates.Count | app.js:7-14 | every template has between 1500 and 3000 particles |
| Templates.IndexOf | app.js:227-228 | every template appears in the key order at its index |
| Templates.Next | app.js:227-230 | the next template sits one place on in the key order, wrapping from the last key to the first |
| Templates.NextNIndex | app.js:226-230 | after k switches the template sits k places on, modulo 6 |
| Templates.NextIsSixCycle | app.js:226-230 | k switches return to the starting template exactly when k is a multiple of 6 |
| Numbers.Trunc | app.js:137-138 | truncation toward zero, the quotient behind `%`: floor for nonnegative input, the least integer at or above the input for negative input |
| Numbers.JsRem | app.js:137-138 | JavaScript `%`: the dividend is the truncated quotient times the divisor plus the remainder; for a nonnegative dividend the remainder lies in [0, divisor) |
| Geometry.TemplatePosition | app.js:87-157 | an unknown name gives the origin; a known one gives that template's branch |
| Geometry.TemplatePositionByKey | app.js:91-156 | looking a template up by its own key runs that template's branch |
| Geometry.SaturnSplit | app.js:116-126 | sphere exactly when index < 0.3·total; the sphere fraction lies in [0, 1) and the ring fraction lies in [0, 1) for valid indices, each scaling back to the index |
| Geometry.SaturnSphereRadius | app.js:117-124 | the first 30% of saturn particles lie on the sphere of radius 8 |
| Geometry.SaturnRingShape | app.js:125-132 | the remaining saturn particles lie on a flat ring, radius² in [144, 324) and \|y\| ≤ 0.5 |
| Geometry.FireworksSlot | app.js:136-138 | burst b and in-burst fraction f in [0, 1) satisfy (b + f)·total/5 = index, with 0 ≤ b ≤ 4 for valid indices |
| Geometry.FireworksShape | app.js:135-144 | each fireworks point is within 20 in x of one of the burst centres -30, -15, 0, 15, 30, with z in [-5, 5) |
| Geometry.SpiralShape | app.js:92-97 | spiral z lies in [-10, 10) and its distance from the axis is 15·index/total |
| Geometry.HeartShape | app.js:99-105 | the heart lies in the box \|x\| ≤ 12.8, \|y\| ≤ 16.8, \|z\| ≤ 5 |
| Geometry.FlowerShape | app.js:107-114 | the flower's distance from the axis lies in [7.5, 22.5] and \|z\| ≤ 3 |
| Geometry.GalaxyShape | app.js:146-153 | the galaxy lies within radius 25 in the x-z plane, with y in [-2.5, 2.5) |
| Gesture.CountTrue | app.js:215-220 | the count is at most the length, 0 exactly when no entry is true, and full exactly when all are |
| Gesture.CountTrueIsMultiplicity | app.js:215-220 | the count is exactly the number of true entries (the multiplicity of `true`) |
| Gesture.Extended | app.js:215-219 | four tests, each saying that fingertip f is above its PIP joint |
| Gesture.FingerCount | app.js:215-220 | at most 4; 4 exactly when all four fingers are up; 0 exactly when none is up |
| Gesture.FingerCountCounts | app.js:215-220 | the finger count is the number of the four tip-above-PIP tests that hold, so 2 means exactly two raised fingers |
| Gesture.PinchIsStrictDistance | app.js:210-224 | the squared-distance test is exactly distance < 0.05 |
| Gesture.PinchBoundary | app.js:224 | tips exactly 0.05 apart are not a pinch; tips 0.0499 apart are |
| Gesture.FirstHand | app.js:201-202 | a hand is present exactly when the list is non-empty, and it is the first one |
| Gesture.Interpret | app.js:200-244 | a switch happens only more than 2000 ms after the stamp, goes to the next template and stamps now; anything else leaves the state unchanged |
| Gesture.Classification | app.js:224-243 | each status holds exactly under its condition, in priority order: pinch, debounced peace sign, open hand (≥ 3 fingers), detected; no hand gives waiting |
| Gesture.DebounceBlocks | app.js:226-234 | after a switch at t, no hand switches again at any time ≤ t + 2000 |
| Gesture.FourFingersOpenHand | app.js:235-236 | four raised fingers without a pinch report open hand and change nothing |
| Gesture.SwitchesSpaced | app.js:226-234 | over any run of frames, consecutive accepted switches are more than 2000 ms apart |
| Gesture.SpacedPairwise | app.js:226-234 | any two accepted switches of a run are more than 2000 ms apart |
| Gesture.NextNShift | app.js:227-230 | advancing once and then k times is advancing k + 1 times |
| Gesture.RunAdvances | app.js:227-232 | after a run, the template is the start advanced once per accepted switch |
| Gesture.RunStamp | app.js:234 | after a run, the stamp is the time of the last accepted switch, or the initial stamp if there was none |
| Gesture.PeaceSequence | app.js:226-238 | peace signs at T, T+500 and T+2100 from spiral go to heart, then no change, then flower |
| Gesture.EarlyPeaceIgnored | app.js:226 | from the initial stamp 0, a peace sign at any time ≤ 2000 ms is not accepted |
| Motion.ModulationFor | app.js:257-271 | without a pinching hand, expansion is 1 and colour shift 0; while pinching, expansion is 2 + sin(0.005·now) and shift is 0.001·now |
| Motion.ModulationRange | app.js:268-270 | expansion stays in [1, 3]; colours are rewritten exactly when pinching at a positive clock |
| Motion.Track | app.js:273-277 | the x gap to the palm target shrinks by 0.95; the y gap to the target + 0.02 does too (follow plus spin) |
| Motion.NextRotation | app.js:260-317 | without a hand only the spin applies; with one, Track towards the palm target |
| Motion.RotationSettles | app.js:273-277 | with the palm held still, after k frames both gaps are 0.95^k of the initial ones |
| Motion.StepParticle | app.js:280-298 | each axis moves by its velocity, then the velocity is pulled towards target·expansion and damped, independently per axis |
| Motion.EnergyContracts | app.js:284-298 | one step multiplies the quadratic energy of (displacement, velocity) by exactly 0.95 |
| Motion.EnergyBoundsError | app.js:284-298 | that energy bounds the squared displacement from the goal |
| Motion.Converges | app.js:284-298 | with a fixed goal, after k frames the energy is 0.95^k of the initial one and the squared displacement is ≤ 2000·0.95^k·energy |
| Motion.DisplacementCanGrow | app.js:284-298 | one step can move a particle sitting on its goal away from it |
| Motion.RestIsFixed | app.js:284-298 | a particle at rest on its goal stays there |
| Motion.Hue | app.js:301 | for a nonnegative shift, the hue is the fractional part of i/n + shift, in [0, 1) |
| App.InitialVelocity | app.js:61-65 | each component is (draw − 0.5)·0.02, in [-0.01, 0.01) for unit draws |
| App.SetTriple | app.js:50-52 | writes the three coordinates of one particle and no other cell |
| App.FillBuffers | app.js:42-66 | fresh buffers of length 3n; particle i's target and position are shape(i), its colour is the base colour, and its velocity comes from its draws |
| App.StepBuffers | app.js:280-307 | each particle's new position and velocity are StepParticle of the old ones; colours are set from the tint when shift > 0 and are otherwise untouched |
| App.ParticleApp.constructor | app.js:1-5 | initial globals (no hand, stamp 0, unrotated) and the built spiral |
| App.ParticleApp.CreateParticles | app.js:34-85 | new buffers with count(name) particles: targets from getTemplatePosition, positions at the targets, the template colour, the initial velocities; hand and stamp are kept |
| App.ParticleApp.OnHandResults | app.js:200-244 | the current hand is the first hand; status and (template, stamp) are as Interpret says; the buffers are rebuilt exactly on a switch, and are otherwise unchanged |
| App.ParticleApp.Animate | app.js:250-320 | the rotation is NextRotation; every particle takes StepParticle under the frame's modulation; colours follow the hue cycle when the shift is positive and stay otherwise |
| App.ParticleApp.StepAll | app.js:280-307 | the particle loop of one frame over the class's buffers, as StepBuffers |

## Left out

- Three.js is not modelled: the scene, camera, renderer, materials, `needsUpdate` flags and `dispose`. The model keeps only the buffers and the rotation.
- MediaPipe and the webcam (`initHandTracking`) are not modelled. A result arrives as the sequence of detected hands.
- The DOM is not modelled: `updateStatus`, the status and template labels, the loading message and `handleResize`. `OnHandResults` returns the status as a value.
- `requestAnimationFrame` scheduling is not modelled. `Animate` is one frame, and a caller repeats it.
- Float32 rounding in the buffers and double-precision rounding are not modelled. The arithmetic is exact over `real`.
- Trigonometry, `Math.random`, `Date.now`, and the colour conversions (`THREE.Color`, `setHSL`) are parameters, as described above.
- The closed forms of sine, cosine and arccosine are not modelled. Each shape lemma assumes only the identities it names.
- Geometry.TemplatePosition: requires total > 0. With total = 0 the JavaScript divides by zero and yields NaN coordinates, which are not modelled.
- App.ParticleApp.CreateParticles: takes a template rather than a string. Every caller in `app.js` passes a key of the table. An unknown name would make `templates[name]` undefined, and the JavaScript would throw.
- App.ParticleApp.Animate: takes one `now` for both `Date.now()` calls of a frame. The JavaScript reads the clock twice, and the two readings may differ by a millisecond.
- App.ParticleApp.OnHandResults: does not model a hand with other than 21 landmarks. MediaPipe always reports 21 landmarks.
- App.ParticleApp.CreateParticles: `new THREE.Color(hex)` is evaluated once per build instead of once per particle. It is pure, so the buffers are the same.
