# Kepler's second law: verified model of the simulation kernels

This project models the three computational kernels of the Unity project
that illustrates Kepler's second law, and proves properties of them in Dafny.

- **Sector mesh** (`sector.dfy`, module `SectorMesh`). This is the swept-area
  sector. Its vertex buffer is append-only and capped at `maxNumVertices`. A
  parallel index buffer grows a triangle fan around vertex 0, which is the
  star. `Valid()` is the class invariant:
  - the counter equals the number of vertices;
  - the counter never exceeds the cap;
  - the index buffer is exactly `FanIndices(count)`.

  Lemmas about `FanIndices` say:
  - its length is `3 * max(0, count - 2)`;
  - every index is below the count;
  - triangle `j` is `(0, j + 2, j + 1)`;
  - triangles already emitted never change.
- **Triangle mesh** (`triangle.dfy`, module `TriangleMesh`). This is the
  single illustrative triangle. It has three vertex slots in an `array` and
  the constant index order `[0, 2, 1]`. `SetVertex` is specified by the pure
  function `Overwrite`, which has these properties:
  - a range guard;
  - only the addressed slot changes;
  - it is idempotent;
  - writes to different slots commute.
- **Kepler simulation** (`kepler.dfy`, module `Kepler`, plus `mathmodel.dfy`,
  module `MathModel`). This is the star–planet orbit over real numbers.
  - The derived quantities are pure functions:
    - gravitational constant, by unit;
    - semi-latus rectum;
    - semi-major axis;
    - aphelion distance;
    - period, as `Finite(t) | Infinite`;
    - energy;
    - signed angular momentum;
    - the orbit equation.
  - The component itself is the class `KeplerSimulation`. Its methods
    `Reset`, `FixedUpdate` and `StepForward` update the timer, the angles and
    the planets' positions in place.
  - `FixedUpdate` is proved against the functions `NextTimer` (the
    resynchronisation timer) and `AdvanceN` (n substeps of the polar-angle
    integrator).
  - The engine's `Sqrt`, `Cos`, `Sin`, `Atan2` and `PI` are left
    uninterpreted, as fields of the record `MathLib`. `MathLib.Lawful()`
    states the only facts used:
    - 3.14 < π < 3.15;
    - cos 0 = 1 and cos π = −1;
    - atan2(0, x) is π for x < 0 and 0 for x > 0;
    - cos² x + sin² x = 1 for every x;
    - sqrt is positive on positive reals.

    The lemma `MathModel.LawfulLibraryExists` exhibits a library that meets
    all of these facts, so they are consistent.
  - Floating-point division is `MathLib.Div`. It is exact for a non-zero
    divisor. For a zero divisor the result is an unspecified value
    (`overZero`), which stands for the IEEE infinity or NaN.

## Model

| member | source | states |
|---|---|---|
| SectorMesh.FanIndices | Assets/SecondLaw/Scripts/Sector.cs:37-42 | The index buffer after n appends holds 3·max(0, n−2) entries, and each is a valid vertex index below n |
| SectorMesh.FanTriangleAt | Assets/SecondLaw/Scripts/Sector.cs:39-41 | The j-th triangle of the fan is exactly (0, j+2, j+1), a fan around vertex 0 |
| SectorMesh.FanIndicesPrefix | Assets/SecondLaw/Scripts/Sector.cs:37-42 | Appending never alters triangles already emitted: the fan over m vertices is a prefix of the fan over n ≥ m |
| SectorMesh.Sector.constructor | Assets/SecondLaw/Scripts/Sector.cs:16-24 | Awake: both buffers empty, counter 0, invariant established |
| SectorMesh.Sector.PositionCount | Assets/SecondLaw/Scripts/Sector.cs:14 | The counter equals the number of stored vertices and never exceeds maxNumVertices |
| SectorMesh.Sector.GetLastPosition | Assets/SecondLaw/Scripts/Sector.cs:68-71 | On a non-empty buffer, returns the vertex at position PositionCount − 1 |
| SectorMesh.Sector.AddVertex | Assets/SecondLaw/Scripts/Sector.cs:26-45 | Full buffer: nothing changes. Otherwise: the vertex is appended and earlier vertices are kept, the counter grows by one, the triangle (0, k, k−1) is added when k ≥ 2, GetLastPosition returns the new vertex, and the invariant is kept |
| SectorMesh.Sector.CloseSector | Assets/SecondLaw/Scripts/Sector.cs:55-58 | With at least two vertices and room left, appends a copy of vertex 1, so the last vertex equals the second, and adds the closing triangle. Full buffer: no change |
| SectorMesh.Sector.Clear | Assets/SecondLaw/Scripts/Sector.cs:60-66 | Both buffers empty and counter 0, so AddVertex accepts vertices again whenever the capacity is positive |
| TriangleMesh.Triangle.constructor | Assets/SecondLaw/TriangleAnimation/Scripts/Triangle.cs:11-18 | Awake: three zero vertices and the index order [0, 2, 1] |
| TriangleMesh.Overwrite | Assets/SecondLaw/TriangleAnimation/Scripts/Triangle.cs:20-30 | Length is kept; slot j takes p exactly when j is the index and the index passes the 0..2 guard; every other slot keeps its value |
| TriangleMesh.OverwriteIdempotent | Assets/SecondLaw/TriangleAnimation/Scripts/Triangle.cs:27-30 | Setting the same (index, point) twice equals setting it once |
| TriangleMesh.OverwriteCommutes | Assets/SecondLaw/TriangleAnimation/Scripts/Triangle.cs:27-30 | Writes to two different slots commute |
| TriangleMesh.Triangle.SetVertex | Assets/SecondLaw/TriangleAnimation/Scripts/Triangle.cs:20-37 | The array becomes Overwrite(old contents, index, p): slot index is p when 0 ≤ index ≤ 2, the other slots are unchanged, the length stays 3 and the index order stays [0, 2, 1] |
| TriangleMesh.Triangle.Clear | Assets/SecondLaw/TriangleAnimation/Scripts/Triangle.cs:39-42 | Neither the vertex buffer nor the index buffer changes |
| Kepler.NewtonG | Assets/KeplerSimulation/Scripts/KeplerSimulation.cs:76-98 | The gravitational constant is positive for every choice of time and length unit |
| Kepler.NewtonGMonthScale | Assets/KeplerSimulation/Scripts/KeplerSimulation.cs:69-83 | With the month (a twelfth of a year) as time unit, G is 144 times smaller than with the year |
| Kepler.NewtonGSolarRadiusScale | Assets/KeplerSimulation/Scripts/KeplerSimulation.cs:89-97 | G scales with the cube of the length unit: G_Rsun·Rsun³ = G_AU·AU³ |
| Kepler.SemiLatusRectum | Assets/KeplerSimulation/Scripts/KeplerSimulation.cs:140-143 | p = q·(1 + e) is positive whenever q > 0 and e > −1 |
| Kepler.SemiMajorAxis | Assets/KeplerSimulation/Scripts/KeplerSimulation.cs:100-103 | For e ≠ 1, a·(1 − e) recovers the perihelion distance (a = q / (1 − e)) |
| Kepler.LatusRectumFromAxis | Assets/KeplerSimulation/Scripts/KeplerSimulation.cs:140-143 | For e ≠ 1, the semi-latus rectum q·(1 + e) equals a·(1 − e²) |
| Kepler.AphelionBeyondPerihelion | Assets/KeplerSimulation/Scripts/KeplerSimulation.cs:275-280 | For 0 ≤ e < 1, the aphelion distance (1 + e)·a equals q·(1 + e)/(1 − e) and is at least q |
| Kepler.OrbitalPeriod | Assets/KeplerSimulation/Scripts/KeplerSimulation.cs:105-119 | The period is infinite if and only if e ≥ 1 |
| Kepler.KeplerSimulation.Period | Assets/KeplerSimulation/Scripts/KeplerSimulation.cs:105-119 | The live getter on the component's settings and the star's current mass: infinite if and only if the eccentricity is at least 1 |
| Kepler.BoundPeriodPositive | Assets/KeplerSimulation/Scripts/KeplerSimulation.cs:114-117 | A bound orbit (e < 1) with positive G, mass and perihelion distance has a finite, positive period |
| Kepler.Energy | Assets/KeplerSimulation/Scripts/KeplerSimulation.cs:121-124 | Whenever a is non-zero, E·a = −G·M/2 |
| Kepler.EnergySign | Assets/KeplerSimulation/Scripts/KeplerSimulation.cs:121-124 | The specific energy is negative on a bound orbit and positive on an open one |
| Kepler.AngularMomentum | Assets/KeplerSimulation/Scripts/KeplerSimulation.cs:126-133 | Under the library facts, when G·M·p > 0, L is negative for a clockwise orbit and positive for a counterclockwise one |
| Kepler.AngularMomentumSign | Assets/KeplerSimulation/Scripts/KeplerSimulation.cs:126-133 | With positive G, mass and perihelion distance and e > −1, the angular momentum is negative for a clockwise orbit and positive for a counterclockwise one |
| Kepler.Parameters | Assets/KeplerSimulation/Scripts/KeplerSimulation.cs:286 | The snapshot Reset takes has e as set, p = q·(1 + e), a·(1 − e) = q when e ≠ 1, and an infinite period exactly when e ≥ 1 |
| Kepler.OrbitSign | Assets/KeplerSimulation/Scripts/KeplerSimulation.cs:285 | orbitSign is −1 or +1, and negative exactly for the left focus |
| Kepler.StarToPlanetDistance | Assets/KeplerSimulation/Scripts/KeplerSimulation.cs:315-319 | The orbit equation: whenever 1 + sign·e·cos θ is non-zero, r·(1 + sign·e·cos θ) = p |
| Kepler.OnAxisDistance | Assets/KeplerSimulation/Scripts/KeplerSimulation.cs:315-319 | The orbit equation returns d whenever p = d·(1 + sign·e·cos θ) and the denominator is non-zero |
| Kepler.InitialPositionOnOrbit | Assets/KeplerSimulation/Scripts/KeplerSimulation.cs:268-289 | For a perihelion start with e ≠ −1, and for an aphelion start with −1 < e < 1, the starting point Reset chooses lies on the orbit. At perihelion the orbit equation at the starting angle gives q (θ = π with the left focus, orbitSign −1); otherwise it gives the aphelion distance. The planet is that distance from the star |
| Kepler.OpenOrbitAphelionStartOffOrbit | Assets/KeplerSimulation/Scripts/KeplerSimulation.cs:275-280 | For an aphelion start on an open orbit (e > 1), Reset puts planet 1 on the side where the orbit equation gives q, but strictly farther than q from the star, so off the orbit |
| Kepler.NextTimer | Assets/KeplerSimulation/Scripts/KeplerSimulation.cs:196-214 | When the resync fires, the new timer is exactly one scaled tick. Otherwise it grows by one tick. Without resetAfterOnePeriod it is untouched |
| Kepler.UnboundTimerOnlyGrows | Assets/KeplerSimulation/Scripts/KeplerSimulation.cs:109-113 | For e ≥ 1 the resync never fires on any tick, and after k ticks the timer has grown by exactly k ticks |
| Kepler.TimerStaysBelowPeriodPlusTick | Assets/KeplerSimulation/Scripts/KeplerSimulation.cs:196-214 | With a positive finite period and a non-negative tick, the timer stays in [0, T + tick) on every tick |
| Kepler.NextTheta | Assets/KeplerSimulation/Scripts/KeplerSimulation.cs:245-248 | Conservation of angular momentum over one substep: r²·Δθ = L·dt whenever r² ≠ 0 |
| Kepler.Advance | Assets/KeplerSimulation/Scripts/KeplerSimulation.cs:245-251 | One substep: the new angle is NextTheta, and under the library facts the new position lies on the orbit at that angle |
| Kepler.AdvanceN | Assets/KeplerSimulation/Scripts/KeplerSimulation.cs:218-226 | n substeps: zero substeps leave the state as it was; after at least one, under the library facts, the planet lies on the orbit at its own angle |
| Kepler.AdvanceNSplit | Assets/KeplerSimulation/Scripts/KeplerSimulation.cs:217-226 | n1 substeps followed by n2 substeps are n1 + n2 substeps |
| Kepler.PointOnOrbitDistance | Assets/KeplerSimulation/Scripts/KeplerSimulation.cs:248-251 | Under the library facts (including cos² + sin² = 1), the point placed at angle θ is exactly r(θ) from the star, r being the orbit equation's distance |
| Kepler.SubstepsCoverTick | Assets/KeplerSimulation/Scripts/KeplerSimulation.cs:217-218 | The numSubsteps substeps add up to the whole scaled tick timeScale·fixedDeltaTime |
| Kepler.CelestialBody.constructor | Assets/KeplerSimulation/Scripts/KeplerSimulation.cs:45-47 | A body with the given position and mass, the two fields the simulation reads and writes |
| Kepler.KeplerSimulation.constructor | Assets/KeplerSimulation/Scripts/KeplerSimulation.cs:44-61 | Before the first reset, the timer and the angles hold their zero defaults, and the three bodies are distinct |
| Kepler.KeplerSimulation.Reset | Assets/KeplerSimulation/Scripts/KeplerSimulation.cs:254-308 | The timer is 0. Without a star or planet 1 nothing else changes. Otherwise the star is placed and weighed (the planets' masses stay), and planet 1 is put at the perihelion or aphelion point. orbitSign is −1 for the left focus and +1 otherwise, the parameter snapshot is taken, θ1 is the angle of planet 1 from the star, and planet 2 is placed on the orbit at θ1 plus the offset |
| Kepler.KeplerSimulation.StepForward | Assets/KeplerSimulation/Scripts/KeplerSimulation.cs:242-252 | The planet's new (position, angle) is one Advance step: θ grows by L·dt/r², then the planet is put on the orbit at the new θ. Its mass is unchanged |
| Kepler.KeplerSimulation.Resynchronize | Assets/KeplerSimulation/Scripts/KeplerSimulation.cs:199-211 | The timer is 0, and planet 1 and planet 2 are back exactly at their stored initial positions. θ1 is recomputed from the star and θ2 is θ1 plus the offset. The planets' masses are unchanged |
| Kepler.KeplerSimulation.AdvanceTimer | Assets/KeplerSimulation/Scripts/KeplerSimulation.cs:196-214 | The timer becomes NextTimer of the old one, and each planet starts its substeps from its snapped-back state if the resync fired, or else from its current state. The planets' masses are unchanged |
| Kepler.KeplerSimulation.UpdatePlanetPositions | Assets/KeplerSimulation/Scripts/KeplerSimulation.cs:216-226 | Each planet present takes exactly SubstepCount (numSubsteps, or none when below 1) Advance steps of the same substep length. The planets' masses are unchanged |
| Kepler.KeplerSimulation.FixedUpdate | Assets/KeplerSimulation/Scripts/KeplerSimulation.cs:184-226 | While paused, or without a star or planet 1, no state changes. Otherwise the timer follows NextTimer on the live period, and each planet ends at AdvanceN of its tick-start state (snapped back if the resync fired) with numSubsteps substeps of length timeScale·fixedDeltaTime / numSubsteps. The planets' masses never change |

## Left out

- Unity `Mesh` calls (`Clear`, `SetVertices`, `SetTriangles`, `RecalculateNormals`, `Optimize`) and the mesh-renderer set-up in `Awake`. They are engine calls with no effect on the modelled buffers.
- Vertex coordinates in `Sector` and `Triangle` are an opaque type parameter. No vector arithmetic happens on them.
- SectorMesh.Sector: `maxNumVertices` is fixed when the component wakes up, as a natural number. A negative inspector value would make the source's list allocation throw, and the model does not represent that failure.
- SectorMesh.Sector.GetLastPosition and SectorMesh.Sector.CloseSector: require a non-empty buffer and at least two vertices, respectively. The source would throw an index exception in those cases, and exceptions are not modelled.
- TriangleMesh.Triangle.constructor: `Vector3.zero` is passed in as the zero vertex.
- Kepler: single-precision floating point is not modelled. Every quantity is a real number. Rounding, the `(float)` cast in the gravitational constant and NaN propagation are not represented. Division by zero gives an unspecified value rather than an IEEE infinity or NaN.
- Kepler: the numerical accuracy of the polar-angle integration, and whether it tracks the true orbit, is not claimed.
- Kepler.KeplerSimulation.FixedUpdate: `Time.fixedDeltaTime` is a parameter. The light directions (lines 228-236) and `currentForce` (line 239) are not modelled; they are presentation output for the UI.
- Kepler.KeplerSimulation.FixedUpdate: the resync and the substep loop are two helper methods, `AdvanceTimer` and `UpdatePlanetPositions`, which run in the source's order.
- Kepler.KeplerSimulation: the settings are public inspector fields, and the source re-reads them on every tick through the `Period` getter (lines 105-119, 199). The model fixes them for the component's lifetime, so edits made in the engine's inspector while the simulation runs are not represented. The three body references are set once when the component wakes up, from the prefab manager.
- Kepler.InitialPositionOnOrbit: requires −1 < e < 1 for an aphelion start, because the source computes the aphelion distance without a guard (lines 275-280). For e > 1 the planet starts off the orbit; `OpenOrbitAphelionStartOffOrbit` proves this. For e = 1 the semi-major axis divides by zero, so the starting position is an unspecified value in the model and an infinity or NaN in the source.
- Integers are unbounded in the model, but C#'s `int` is 32 bits wide. The substep loop (KeplerSimulation.cs line 218) counts a 32-bit counter from 1 up to `numSubsteps` inclusive, so it never ends when `numSubsteps` is `int.MaxValue`: the counter wraps around. The model's loop stops after `SubstepCount` steps. The list capacities that `Sector`'s `Awake` computes from `maxNumVertices` (Sector.cs lines 21-22) overflow for large caps and make the allocation throw; the model does not represent that.
- Kepler.KeplerSimulation.Reset: the star's radius and rotation flag and the planets' radii and rotation flags are not modelled. They only affect rendering.
- Kepler.Energy: included in the parameter snapshot; only E·a = −G·M/2 and its sign are proved.
- `PeriodToSemiMajorAxisRatio` (a read-only diagnostic), `HideStar` (a renderer toggle), `Awake`'s prefab lookup, and `Pause`/`Resume`: not modelled. `Pause` and `Resume` live in the base class `Simulation`, which is not part of this model; `paused` is a field that the model only reads.
- KeplerPrefabManager.cs, KeplerSlideController.cs, SectorAnimation.cs, TriangleAnimation.cs, SectorSlideController.cs and TriangleSlideController.cs: not modelled. They are prefab, animation-coroutine and UI code.
