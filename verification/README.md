# ARBrush paint engine in Dafny

A model of the paint-deposition engine of ARBrush, an augmented-reality
"spray paint" app for Unity/ARKit, together with the paint-type selector
that drives it.

* `PaintManager` receives one camera pose per AR frame. It computes a paint
  position 0.5 units in front of the camera. A position further than 0.1
  from the previous accepted one passes the distance gate and becomes the new
  previous position. While painting is on, it is then either buffered as a
  particle point (type DOLLAR) or stamped as an instantiated star, sphere or
  cube object (every other type). Once per tick the whole point buffer is
  flushed into the current particle system. `RandomizeColor` seals a
  non-empty particle system. `Reset` destroys everything painted.
* `UIManager` cycles an index through a palette of five, writes it into the
  engine's paint type and switches on the one indicator matching it.

Files and modules:

| file | module | contents |
|---|---|---|
| `geometry.dfy` | `Geometry` | points over exact reals, the paint position in front of the camera, the distance gate `Far` |
| `paint_manager.dfy` | `PaintManager` | the `Engine` record, one pure transition per entry point, the invariant `Consistent` |
| `paint_traces.dfy` | `PaintTraces` | whole streams of samples, compared against `Accepted`, an independent statement of which samples the gate lets through |
| `ui_manager.dfy` | `UIManager` | the selector, the selector/engine pair `App` and its agreement invariant `Synced` |
| `scenarios.dfy` | `Scenarios` | two concrete sessions worked through from start-up |

Modelling choices:

* Unity objects become values. `Instantiate(template, p, …)` appends a
  `PaintObject(template, p)` to `gameObjects`. `SetParticles` replaces
  `currentParticles`, which is what the current particle system holds. Its
  length is the system's `particleCount`. Sealing appends `currentParticles`
  to `savedSystems`.
* `Vector3.Distance(p, q) > 0.1` is modelled as squared distance `> 0.01` over
  exact reals. This is equivalent for real numbers. Float rounding is not
  modelled.
* The paint type is an `int`. The C# enum `PaintTemplateType` has four
  members: CUBE 0, BUBBLE 1, STAR 2, DOLLAR 3. `UIManager` has a palette of
  five (`PAINT_TEMPLATE_COUNT = 5`) and casts its index into the enum
  unchecked. The engine's `else if` chain therefore paints index 3 as
  particles, 2 as stars and 1 as spheres. Every other value, including 4,
  falls through to cubes. `UIManager`'s switch names `EARTH` and `PEPE`,
  which the enum does not declare. The model reads those case labels as
  indices 1 and 4, the indicators' palette positions. The lemma
  `UIManager.IndicatorVersusTemplate` records the effect: with the Pepe
  indicator on, the engine paints cubes.
* `previousPosition` starts at the origin. `Start` does not assign it, so it
  keeps C#'s default `Vector3`.
* `paintIndex` `%` is C#'s truncating remainder (`UIManager.CsRem`).
  `paintIndex` never becomes negative, so the difference from Dafny's `%` is
  never exercised.
* Because `previousPosition` starts at the origin, a camera at z = 0, 0.05
  and 0.7 looking along z produces two cubes, at 0.5 and 1.2
  (`Scenarios.CubeSession`).
* `FrameUpdated` tests the distance gate before it tests the painting
  switch, so every accepted sample advances `previousPosition`, also while
  painting is off.
* A seal stores what the particle system holds, which is the last flush,
  not the buffer. Points buffered after the last flush are dropped by a seal
  (`PaintManager.SealKeepsFlushedPoints`).

## Model

| member | source | states |
|---|---|---|
| `PaintManager.Start` | Assets/Scripts/PaintManager.cs:111-121 | start-up: type CUBE, painting off, dirty flag clear, no objects, no buffered points, no sealed systems, an empty particle system; the invariant holds |
| `PaintManager.Sample` | Assets/Scripts/PaintManager.cs:201-227 | a sample within 0.1 of the previous position changes nothing; an accepted sample while off only moves the previous position; while on with DOLLAR it appends exactly the sample to the buffer, sets the dirty flag and places no object; while on with any other type it appends exactly one object at the sample (star for 2, sphere for 1, cube otherwise) and leaves the buffer alone; settings and particle systems never change; the invariant is kept |
| `PaintManager.FrameUpdated` | Assets/Scripts/PaintManager.cs:198-228 | a frame adds at most one point or one object, and it lies `CameraItemDistance` along the camera's forward direction; the invariant is kept |
| `PaintManager.Particles` | Assets/Scripts/PaintManager.cs:134-142 | a flush builds one particle per buffered point, same order, each with size 0.1 |
| `PaintManager.Update` | Assets/Scripts/PaintManager.cs:125-145 | nothing happens unless the type is DOLLAR, painting is on, the flag is set and the buffer is non-empty; a flush hands the whole buffer, in order, with size 0.1, to the particle system, clears the flag and keeps the buffer; after a tick while painting particles the whole buffer is on screen |
| `PaintManager.TogglePaint` | Assets/Scripts/PaintManager.cs:149-152 | flips the painting switch and changes nothing else |
| `PaintManager.TogglePaintTwice` | Assets/Scripts/PaintManager.cs:149-152 | toggling twice is the identity |
| `PaintManager.RandomizeColor` | Assets/Scripts/PaintManager.cs:156-163 | with an empty particle system nothing changes; otherwise exactly one sealed system is appended, equal to the current particles, the buffer and the particle system are emptied, and objects, settings, previous position and flag are unchanged |
| `PaintManager.SaveParticleSystem` | Assets/Scripts/PaintManager.cs:188-193 | exactly the current particles are appended to the sealed systems; the particle system and the buffer become empty; objects, settings, previous position and flag are unchanged; the invariant is kept when the particle system was non-empty |
| `PaintManager.SealKeepsFlushedPoints` | Assets/Scripts/PaintManager.cs:188-193 | the sealed system is the flush of the buffer up to the last flush, in order; with a clear flag, the flush of the whole buffer |
| `PaintManager.Reset` | Assets/Scripts/PaintManager.cs:167-184 | no objects, no sealed systems, no buffered points, an empty particle system; painting switch, type, previous position and flag untouched |
| `PaintManager.ResetIdempotent` | Assets/Scripts/PaintManager.cs:167-184 | resetting twice equals resetting once |
| `PaintManager.Step` | Assets/Scripts/PaintManager.cs:125-228 | no engine entry point changes the paint type, and each keeps the invariant |
| `PaintManager.Run` | Assets/Scripts/PaintManager.cs:125-228 | any sequence of entry points keeps the paint type and the invariant |
| `PaintManager.ReachableConsistent` | Assets/Scripts/PaintManager.cs:111-121 | every state reachable from start-up satisfies the invariant: the particle system shows the flush of a prefix of the buffer, all of it when the flag is clear, and every sealed system is non-empty |
| `PaintTraces.FeedParticles` | Assets/Scripts/PaintManager.cs:205-209 | painting particles, a stream of samples appends exactly the gate-accepted samples to the buffer in order, places no object, sets the flag iff one was accepted, and leaves the last accepted one as previous position |
| `PaintTraces.FeedObjects` | Assets/Scripts/PaintManager.cs:210-224 | painting objects, a stream places one object of the type's template per accepted sample, in order, and buffers nothing |
| `PaintTraces.FeedWhileOff` | Assets/Scripts/PaintManager.cs:201-226 | while painting is off, a stream only moves the previous position to the last accepted sample |
| `PaintTraces.FeedJitter` | Assets/Scripts/PaintManager.cs:201 | samples that all stay within 0.1 of the previous position leave the engine unchanged |
| `PaintTraces.SpacedAllAccepted` | Assets/Scripts/PaintManager.cs:201 | samples each more than 0.1 from the one before are all accepted, and the last becomes the previous position |
| `PaintTraces.FlushRoundTrip` | Assets/Scripts/PaintManager.cs:127-144 | N spaced particle samples into an empty buffer, then one tick, give the particle system exactly N particles, in the order painted, with a clear flag |
| `UIManager.CsRem` | Assets/Scripts/UIManager.cs:88 | C#'s remainder: with the quotient truncated toward zero, quotient times `n` plus remainder is the dividend; the remainder is in `[0, n)` for a non-negative dividend and in `(-n, 0]` for a negative one |
| `UIManager.NextIndex` | Assets/Scripts/UIManager.cs:88 | from a palette index, the next one, wrapping from 4 to 0; the index stays in `[0, 5)` |
| `UIManager.PrevIndex` | Assets/Scripts/UIManager.cs:97-98 | from a palette index, the previous one, wrapping from 0 to 4; the index stays in `[0, 5)` |
| `UIManager.PrevUndoesNext` | Assets/Scripts/UIManager.cs:86-101 | previous after next restores the index |
| `UIManager.NextUndoesPrev` | Assets/Scripts/UIManager.cs:86-101 | next after previous restores the index |
| `UIManager.NextNCycles` | Assets/Scripts/UIManager.cs:88 | n steps forward from index i land on `(i + n) mod 5` |
| `UIManager.FiveNextsRestore` | Assets/Scripts/UIManager.cs:38 | five consecutive steps forward return to the starting index |
| `UIManager.UpdatePaintType` | Assets/Scripts/UIManager.cs:105-108 | the engine's paint type becomes the index; nothing else in the engine changes |
| `UIManager.UpdatePaintItem` | Assets/Scripts/UIManager.cs:112-137 | for a palette index exactly one indicator is on, the one at that palette position; for any other value none is |
| `UIManager.Start` | Assets/Scripts/UIManager.cs:72-75 | at start-up the index is 0, the engine is in its own start-up state, the index agrees with the engine's initial type, and the engine invariant holds |
| `UIManager.NextPaintType` | Assets/Scripts/UIManager.cs:86-91 | moves to the next index, writes it into the engine's paint type, changes nothing else in the engine; selector and engine then agree and exactly the matching indicator is on |
| `UIManager.PrevPaintType` | Assets/Scripts/UIManager.cs:95-101 | the same for the previous index |
| `UIManager.NextThenPrevRestores` | Assets/Scripts/UIManager.cs:86-101 | from an agreeing state, next then previous restores selector and engine exactly |
| `UIManager.PrevThenNextRestores` | Assets/Scripts/UIManager.cs:86-101 | from an agreeing state, previous then next restores selector and engine exactly |
| `UIManager.AppStep` | Assets/Scripts/UIManager.cs:86-101 | a navigation button establishes agreement; an engine entry point keeps it and leaves the selector alone; the engine invariant is kept |
| `UIManager.AppRun` | Assets/Scripts/UIManager.cs:86-101 | any sequence of buttons and engine entry points keeps the index in the palette, agreement and the engine invariant |
| `UIManager.SyncedAfterFirstNavigation` | Assets/Scripts/UIManager.cs:86-137 | after start-up and a first navigation button, selector and engine agree whatever follows |
| `UIManager.IndicatorVersusTemplate` | Assets/Scripts/PaintManager.cs:210-224 | with the Pepe indicator on the engine stamps cubes, with the Earth indicator on it stamps spheres |
| `Scenarios.CubeSession` | Assets/Scripts/PaintManager.cs:198-228 | camera at z = 0, 0.05, 0.7 looking along z, painting cubes: cubes at 0.5 and 1.2, the sample at 0.55 is dropped |
| `Scenarios.DollarSession` | Assets/Scripts/PaintManager.cs:125-193 | three Dollar samples 0.2 apart and a tick show three particles in order; a seal keeps them; a reset removes everything |

## Left out

- `OnEnable`/`OnDestroy` (subscription to the AR frame event): foreign ARKit plumbing; each frame is an explicit `Frame` event.
- `GetCameraPosition` and `Camera.main.transform.forward`: foreign calls; camera position and forward direction are parameters of `FrameUpdated`.
- `Awake` null checks on the template references: configuration wiring, no behaviour once configured.
- Objects are instantiated with the manager's own `transform.rotation`, which is the same for every object, so objects record only template and position.
- Float `Vector3` arithmetic and rounding: positions are exact reals.
- Unity particle lifetimes: the model takes `particleCount` to be the number of particles set by the last flush, so particles never expire on their own.
- Identity of particle-system instances (`Instantiate`/`Destroy` of the Dollar template): systems are represented by their contents.
- Paint colour: the colour assignments are commented out in the source.
- `Assets/Scripts/TouchInput.cs`: a float-time double-tap debounce that calls `FreeFall`, which `PaintManager` does not define. Releasing objects into physics therefore has no source and is not modelled.
- `UIManager.Update`: empty. The indicators' state before the first navigation is set by the scene, so it is a parameter of `UIManager.Start`.
- `PaintManager.FrameUpdated`: states the position of what is added, but not which branch fires; `PaintManager.Sample` states that.
