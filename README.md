# Structural dynamics of a stellar body: corona step engines and core layers

This project models three parts of a Rust simulation of the Sun:

- **The magnetic-reconnection simulation of the corona** (module `Reconnection`, `reconnection.dfy`). Particles with a position and a velocity drift along a one-dimensional grid of magnetic-field strengths. Each time step does four things in order:
  1. It replaces the field by a fresh array. The interior cells get a fourth-order central-difference update; the two cells at each end become 0.0.
  2. It moves every particle by its velocity times the step size.
  3. It counts every cell strictly above 1.5 as a reconnection event.
  4. It answers each such cell: the cell loses 0.5, and every particle velocity is multiplied by 1.1.

  After the four passes, the total field strength is sampled when the elapsed time passes the sampling test, and the step size is recomputed as `0.01 / (1 + max strength)`. A run ends by appending one `(total_time, average)` entry to the time series.

  The simulation is a class. Particles and strengths are arrays, and the field is replaced by a fresh array on every evolution step. Each method is proved against per-cell and per-particle postconditions. Functions specify what the passes compute: the stencil, the count of sites above the threshold, the step size, the closed form of drifting. Lemmas state what the Rust program promises about those functions.

  The `while` loop of `time_integration` is split into `Step` (the four passes), `AdaptStepSize`, `StepAndAdapt` (both), `Advance` (one iteration with its sampling) and `RunSteps` (the loop). `TimeIntegration` runs them and records the average.

  A `Snapshot` is the state the loop is in after one step. It holds the elapsed time the step started at and the field its evolution pass left (`Evolved`). It also holds what the step left: the field (`Relaxed`), the particles, the event counter, the sample count, the sampled total, the step size and the elapsed time. `Follows` states one iteration from one snapshot to the next. The run returns the ghost sequence of its snapshots. Its contract states that each snapshot follows from the one before, the first from the state the run started in, and that the object ends in the last one. `RunTotals` turns that chain into closed forms: the counter grows by the sites of every evolved field, and the samples are the sampled steps and the sum of their fields. `RunTimes` bounds every step. Every step leaves the first cell at 0, so the strongest cell is never below 0 and every recomputed step lies in (0, 0.01].

- **The wave-heating variant** (module `WaveHeating`, `wave_heating.dfy`). Particles carry mass, charge, radius and spin. The field has a per-cell direction. There are three wave ensembles, and the initialisers append random draws to them. The integration runs a fixed number of iterations. Each iteration:
  - drifts the particles;
  - damps every Alfvén amplitude by `1 - 0.1 dt`;
  - advances every Alfvén phase by `2 pi f dt`;
  - raises every field cell by `0.1 dt`.

  The class keeps its vectors as `seq` fields. The integration is proved to leave every element in the closed form of n iterations (`ParticleAfter`, `WaveAfter`, `CellAfter`). The analysis returns the maximum and the average of velocities, amplitudes and strengths.

- **The layered core of the Sun** (module `SolarCore`, `solar_core.dfy`). A `Sun` has three layers: the core, the radiative zone and the convective zone. Each layer is a half-open depth interval with a property profile.
  - `get_layer` is a first-match classifier over the three intervals.
  - The three `*_at_depth` lookups dispatch on its answer. They panic when the depth lies in no layer; here that is their precondition.
  - The profile trait of the Rust program becomes the sum type `LayerProperties`, with one case per implementation.

Shared numerics are in module `Numerics` (`numerics.dfy`): `Pow`, the left-to-right `Sum`, the maximum fold `MaxOf`, and the average `Mean`.

Every `f64` is an exact `real` and every `usize` an unbounded `nat`. The IEEE values that the Rust program can produce are represented explicitly:
- The maximum fold over an empty input gives negative infinity. That is `None`.
- An average over no elements gives NaN. That is `None`.
- A profile that divides by zero or takes the square root of a negative number gives an infinity or NaN. That is `SolarCore.NonFinite`.

The square root itself is a parameter, `sqrt: real -> real`, of the profiles that need it. Random draws, the sampling decision and the iteration count are parameters of the methods that use them, constrained to the ranges the Rust program draws from.

Two consequences of the code as written are stated as lemmas rather than corrected:
- Every lookup passes the matched layer's lower radius as the profile radius, so in the configured Sun the temperature is finite only at the depth equal to the core radius (`ConfiguredSunTemperatureFiniteOnlyAtCoreRadius`).
- The radiative and convective intervals of the configured Sun overlap, and first-match classification gives the overlap to the radiative zone (`ConfiguredSunOverlap`).

## Model

| member | source | states |
|---|---|---|
| `Reconnection.Simulation.constructor` | src/corona_module/magnetic_reconnection.rs:43-62 | `num_particles` particles at the drawn positions with velocity 0, a zero field of `num_cells` cells, the given `dt` and total time, event counter 0 and an empty time series |
| `Reconnection.Simulation.InitializeMagneticField` | src/corona_module/magnetic_reconnection.rs:64-69 | every cell of the field is 1.0 afterwards |
| `Reconnection.Simulation.DetermineInitialParticleDistribution` | src/corona_module/magnetic_reconnection.rs:71-78 | every particle is replaced by its drawn position in [0, 100) and velocity in [-1, 1) |
| `Reconnection.Simulation.CalculateMagneticFieldEvolution` | src/corona_module/magnetic_reconnection.rs:110-128 | the field becomes a fresh array of the same length: cells 0, 1, n-2 and n-1 are 0.0, and each interior cell is the stencil update computed from the values before the step; nothing else in the simulation changes; at least two cells are required, because fewer underflow the loop bound |
| `Reconnection.SecondDifference` | src/corona_module/magnetic_reconnection.rs:120-123 | the value times `12 dt^2` is the weighted sum `-b[i+2] + 16 b[i+1] - 30 b[i] + 16 b[i-1] - b[i-2]` |
| `Reconnection.StencilAt` | src/corona_module/magnetic_reconnection.rs:120-123 | the change of the cell, times `12 dt`, is the same weighted sum: one factor `dt` of the scaling cancels against the step |
| `Reconnection.StencilOfUniform` | src/corona_module/magnetic_reconnection.rs:120-123 | the stencil coefficients sum to zero, so an interior cell whose five stencil inputs all equal c gets the value c |
| `Reconnection.Simulation.ModelParticleDynamics` | src/corona_module/magnetic_reconnection.rs:130-135 | every position advances by velocity times `dt`; velocities and the particle count are unchanged, and only the particles are modified |
| `Reconnection.DriftIsLinear` | src/corona_module/magnetic_reconnection.rs:133 | drifting through any sequence of steps displaces a particle by its velocity times the total of the steps, velocity unchanged |
| `Reconnection.Simulation.DetectReconnectionEvents` | src/corona_module/magnetic_reconnection.rs:137-144 | the counter grows by exactly `CountAbove` of the field, and only the counter changes |
| `Reconnection.CountAbove` | src/corona_module/magnetic_reconnection.rs:139-141 | the running count of sites is at most the number of cells |
| `Reconnection.CountAboveIsSiteCount` | src/corona_module/magnetic_reconnection.rs:139-141 | the running count equals the number of cell indices whose strength is strictly above 1.5 |
| `Reconnection.NoSitesIffAllAtMostThreshold` | src/corona_module/magnetic_reconnection.rs:139-141 | no event is counted exactly when every cell is at most 1.5, so a cell of exactly 1.5 never counts |
| `Reconnection.Simulation.UpdateMagneticFieldAndParticles` | src/corona_module/magnetic_reconnection.rs:146-156 | each cell above 1.5 loses exactly 0.5 and every other cell is unchanged; every particle keeps its position and has its velocity multiplied by 1.1 to the power of the number of such cells |
| `Reconnection.Simulation.AccelerateParticles` | src/corona_module/magnetic_reconnection.rs:151-153 | one response to a site multiplies every particle velocity by 1.1 and keeps every position |
| `Reconnection.ScaledTwice` | src/corona_module/magnetic_reconnection.rs:151-153 | scaling every velocity by f and then by g is scaling it by f g, so k responses multiply each velocity by 1.1^k |
| `Reconnection.LoweredCellsAreCounted` | src/corona_module/magnetic_reconnection.rs:137-156 | when detection and response run on the same field, the cells the response lowers are exactly as many as detection added to the counter |
| `Reconnection.BoostFactor` | src/corona_module/magnetic_reconnection.rs:148-153 | the velocity factor 1.1^k is at least 1, and exactly 1 if and only if no cell is above the threshold |
| `Reconnection.NextDt` | src/corona_module/magnetic_reconnection.rs:100 | the step times `1 + max` is 0.01 |
| `Reconnection.NextDtProperties` | src/corona_module/magnetic_reconnection.rs:99-100 | the new step `0.01 / (1 + max)` is never zero, is positive when the maximum exceeds -1, is at most 0.01 when the maximum is at least 0, and strictly decreases as the maximum grows |
| `Reconnection.SampleAverage` | src/corona_module/magnetic_reconnection.rs:106 | the recorded average is defined if and only if at least one sample was taken over a non-empty field; otherwise it is the NaN of 0/0 |
| `Reconnection.Simulation.Step` | src/corona_module/magnetic_reconnection.rs:86-89 | the four passes in order: the evolved field (`Evolved`) is the stencil update of the old field with 0.0 at both ends, the counter grows by the sites of that evolved field, each site then loses 0.5 (`Relaxed`), and every particle drifts by `dt` and has its velocity multiplied by 1.1 per site; the first cell ends at 0 |
| `Reconnection.Simulation.AdaptStepSize` | src/corona_module/magnetic_reconnection.rs:99-100 | on a field whose first cell is 0 the new step is `0.01 / (1 + max strength)`, the maximum is at least 0, and the step lies in (0, 0.01] |
| `Reconnection.Simulation.StepAndAdapt` | src/corona_module/magnetic_reconnection.rs:86-100 | the four passes exactly as `Step` states them, with the evolved field `Evolved(old field, old dt)`, the new field `Relaxed` of it, the counter grown by its sites and the particles drifted and boosted; then the step size is `0.01 / (1 + max)` of the new field, whose first cell is 0, so it lies in (0, 0.01] |
| `Reconnection.Simulation.Advance` | src/corona_module/magnetic_reconnection.rs:86-101 | one pass of the loop: from the state the object is in, it reaches a state that `Follows` it (the four passes, a sample exactly when the sampling test passes at the elapsed time, the new step size and the elapsed time advanced by it), and the new step lies in (0, 0.01] |
| `Reconnection.RunExtend` | src/corona_module/magnetic_reconnection.rs:85-102 | a run stays a run, each state following the one before, when a state that follows its last one is appended, and that state becomes its last |
| `Reconnection.RunPrefix` | src/corona_module/magnetic_reconnection.rs:85-102 | every prefix of a run is a run from the same start |
| `Reconnection.Simulation.RunSteps` | src/corona_module/magnetic_reconnection.rs:85-102 | the loop stops with the elapsed time at least the total time or with the budget used up; the returned states form a run from the state the object started in, one per step, and the object, the elapsed time and the samples end in its last state; with no step the field is the same array |
| `Reconnection.Simulation.TimeIntegration` | src/corona_module/magnetic_reconnection.rs:80-108 | exactly one entry `(total_time, SampleAverage(total, samples, cells))` is appended; the field, particles, counter, step size and elapsed time are those of the last state of a run in which each state follows from the one before; the counter grew by the sites of every evolved field, `samples` counts the steps whose start time passes the sampling test and `total` sums their fields; every step started in [0, total time) with a step in (0, 0.01]; with a positive total time and budget at least one step runs, and since time 0 passes the test a defined average is recorded; with no step the elapsed time is 0 and the field unchanged; with total time at most 0 no step runs; the run stops because the elapsed time reached the total time or the budget ran out |
| `Reconnection.RunTotals` | src/corona_module/magnetic_reconnection.rs:85-102 | along a run the event counter grows by exactly the sites of every evolved field, the sample count by the steps whose start passes the sampling test, and the sampled total by the sum of those steps' fields |
| `Reconnection.RunTimes` | src/corona_module/magnetic_reconnection.rs:85-102 | every step of a run from elapsed time 0 starts at a time in [0, total time), uses a step in (0, 0.01] and ends that much later |
| `Reconnection.SampleCount` | src/corona_module/magnetic_reconnection.rs:92-95 | the number of sampled steps is at most the number of steps |
| `Reconnection.SampleCountPositive` | src/corona_module/magnetic_reconnection.rs:92-95 | a run whose first step starts at a sampled time takes at least one sample |
| `Numerics.MaxOf` | src/corona_module/magnetic_reconnection.rs:99 | the fold from negative infinity is defined if and only if the input is non-empty, bounds every element from above, and equals one of them |
| `Numerics.SumOfConstant` | src/corona_module/magnetic_reconnection.rs:93 | the sum of n equal values c is n c |
| `Numerics.SumBoundedAbove` | src/corona_module/wave_heating.rs:302 | the sum of n values that are each at most m is at most n m |
| `Numerics.Mean` | src/corona_module/wave_heating.rs:302 | the average `sum / len` is defined if and only if the input is non-empty |
| `Numerics.MeanAtMost` | src/corona_module/wave_heating.rs:302 | the average never exceeds a common upper bound of the elements |
| `Numerics.MeanAtMostMax` | src/corona_module/wave_heating.rs:313-314 | on a non-empty input the average is at most the maximum |
| `Numerics.MeanTimesCount` | src/corona_module/wave_heating.rs:314 | the average times the number of elements is the sum |
| `Numerics.MeanOfConstant` | src/corona_module/wave_heating.rs:314 | the average of a uniform input is its common value |
| `Numerics.PowUnitInterval` | src/corona_module/wave_heating.rs:221 | a damping factor in [0, 1], applied any number of times, stays in [0, 1] |
| `Numerics.PowGrowth` | src/corona_module/magnetic_reconnection.rs:152 | a factor of at least 1, applied any number of times, is at least 1, and at least the factor itself after one or more applications |
| `WaveHeating.Simulation.constructor` | src/corona_module/wave_heating.rs:116-145 | `num_particles` particles at the drawn positions with velocity 0, mass 1, charge 1, radius 0.1 and spin 0.5; `num_cells` zero strengths; `num_cells` directions (0, 0, 1); three empty wave vectors; all counts and parameters stored |
| `WaveHeating.Simulation.InitializeParticles` | src/corona_module/wave_heating.rs:148-158 | exactly `num_particles` drawn particles are appended after the existing ones, which are untouched; after the constructor this gives twice `num_particles` particles |
| `WaveHeating.Simulation.InitializeMagneticField` | src/corona_module/wave_heating.rs:161-163 | the strengths become `num_cells` cells of 1.0 |
| `WaveHeating.Simulation.InitializeAlfvenWaves` | src/corona_module/wave_heating.rs:164-180 | exactly the `num_alfven_waves` draws are appended in order; each has position in [0, 100), amplitude in [0, 1), phase in [0, 2 pi), frequency in [0, 1) and velocity in [-1, 1) |
| `WaveHeating.Simulation.InitializeAcousticWaves` | src/corona_module/wave_heating.rs:182-192 | exactly the `num_acoustic_waves` draws are appended in order after the existing waves |
| `WaveHeating.Simulation.InitializeMagnetoAcousticWaves` | src/corona_module/wave_heating.rs:195-205 | exactly the `num_magneto_acoustic_waves` draws are appended in order after the existing waves |
| `WaveHeating.Simulation.TimeIntegration` | src/corona_module/wave_heating.rs:208-231 | after n iterations every particle, Alfvén wave and field cell is in its n-iteration closed form, every vector keeps its length, and directions and the other two wave ensembles are never modified |
| `WaveHeating.ParticleAfterStep` | src/corona_module/wave_heating.rs:211-216 | one iteration on top of the n-iteration closed form of a particle gives the (n+1)-iteration form: position plus velocity times `dt`, all other attributes unchanged |
| `WaveHeating.WaveAfterStep` | src/corona_module/wave_heating.rs:219-223 | one iteration on top of the n-iteration closed form of an Alfvén wave gives the (n+1)-iteration form: amplitude A0 (1 - 0.1 dt)^n, phase phi0 + n 2 pi f dt, position, frequency and velocity unchanged |
| `WaveHeating.CellAfterStep` | src/corona_module/wave_heating.rs:226-229 | one iteration adds `0.1 dt` on top of the n-iteration closed form of a cell |
| `WaveHeating.RunsCompose` | src/corona_module/wave_heating.rs:208-231 | a run of m iterations followed by a run of n leaves particles, waves and cells as one run of m + n does |
| `WaveHeating.ParticleRunsCompose` | src/corona_module/wave_heating.rs:211-216 | m iterations then n iterations move a particle as m + n do |
| `WaveHeating.WaveRunsCompose` | src/corona_module/wave_heating.rs:219-223 | m iterations then n iterations leave an Alfvén wave's amplitude and phase as m + n do |
| `WaveHeating.DampingCompose` | src/corona_module/wave_heating.rs:221 | damping an amplitude m times and then n times is damping it m + n times |
| `WaveHeating.AmplitudeStaysBounded` | src/corona_module/wave_heating.rs:221 | with `dt` in [0, 10] a non-negative amplitude stays between 0 and its starting value for any number of iterations |
| `WaveHeating.AmplitudeFlipsSign` | src/corona_module/wave_heating.rs:221 | with `dt` above 10 the damping factor is negative, so a positive amplitude becomes negative after one iteration |
| `WaveHeating.NominalDecay` | src/corona_module/wave_heating.rs:221 | at `dt` = 0.01 the amplitude after n iterations is A0 * 0.999^n |
| `WaveHeating.MaxAndMeanSummarise` | src/corona_module/wave_heating.rs:301-314 | over any values, the maximum and the average are defined exactly on non-empty input, the maximum bounds and attains the values, and the average times the count is the sum and is at most the maximum |
| `WaveHeating.Simulation.AnalyzeResults` | src/corona_module/wave_heating.rs:299-317 | the six results are the maxima and averages of particle velocities, Alfvén amplitudes and field strengths (the helpers `Velocities` and `Amplitudes` project them in order), each pair summarising its values as above |
| `WaveHeating.UniformFieldSummary` | src/corona_module/wave_heating.rs:313-314 | a field that was uniform before n iterations has maximum and average both equal to the common value plus `n 0.1 dt` |
| `SolarCore.TemperatureProfile` | src/core_module/core.rs:15-17 | `T sqrt(1 - depth / radius)` is finite if and only if the radius is non-zero and `depth / radius` is at most 1 |
| `SolarCore.LayerProperties.Calculate` | src/core_module/core.rs:15-138 | the three `calculate` implementations (lines 15-17, 52-57, 135-138): a temperature-gradient profile is finite exactly when the core radius is non-zero and `depth / core_radius` is at most 1; a density-gradient profile exactly when the core radius is non-zero; the core profile ignores the passed radius and is finite exactly when its own radius is non-zero and `depth / radius` is at most 1 |
| `SolarCore.DensityGradientEnds` | src/core_module/core.rs:52-57 | the density profile equals the core density at depth 0 and 0.8 of it at depth `core_radius` |
| `SolarCore.DensityGradientIsLinear` | src/core_module/core.rs:52-57 | the density profile is `core_density (1 - 0.2 depth / core_radius)`, and is non-finite exactly when the radius is 0 |
| `SolarCore.LayerProperties.OpticalDepth` | src/core_module/core.rs:19-150 | the three `calculate_optical_depth` implementations (lines 19-24, 59-64, 145-150) each answer 0.5 |
| `SolarCore.OpticalDepthIsConstant` | src/core_module/core.rs:19-24 | every profile's optical depth is 0.5 whatever the wavelength |
| `SolarCore.Layer.CalculateProperty` | src/core_module/core.rs:167-169 | the layer's profile, finite under the same conditions per profile kind, with the passed radius as the gradient radius |
| `SolarCore.Sun.GetLayer` | src/core_module/core.rs:179-189 | an answer names a layer whose half-open interval holds the depth, and there is no answer exactly when no interval holds it |
| `SolarCore.GetLayerIsFirstMatch` | src/core_module/core.rs:179-189 | the answer is the core if and only if the core interval holds the depth; the radiative zone if and only if it holds the depth and the core does not; the convective zone if and only if it alone of the three in order holds it; and none exactly when no interval holds it |
| `SolarCore.UpperRadiusExcluded` | src/core_module/core.rs:180-185 | intervals are half-open: a layer's upper radius is never classified as that layer |
| `SolarCore.Sun.TemperatureAtDepth` | src/core_module/core.rs:191-198 | defined exactly where the classifier answers; then the matched layer's profile evaluated with that layer's lower radius |
| `SolarCore.Sun.DensityAtDepth` | src/core_module/core.rs:200-207 | defined exactly where the classifier answers; then the matched layer's profile evaluated with that layer's lower radius |
| `SolarCore.Sun.EnergyGenerationRateAtDepth` | src/core_module/core.rs:209-216 | defined exactly where the classifier answers; then the matched layer's profile evaluated with that layer's lower radius |
| `SolarCore.LookupsAgree` | src/core_module/core.rs:191-216 | the temperature, density and energy-generation lookups return the same value at every depth they accept |
| `SolarCore.ConfiguredSun` | src/core_module/core.rs:233-253 | the core starts at depth 0 and ends where the radiative zone starts, at the core radius; the convective zone starts before the radiative zone ends and ends at the solar radius; every layer is a temperature gradient |
| `SolarCore.ConfiguredSunOverlap` | src/core_module/core.rs:233-253 | in the configured Sun, a depth in both the radiative and the convective interval is classified as radiative zone; only [0.9 R, R) is convective zone; exactly [0, R) is classified at all |
| `SolarCore.ConfiguredSunTemperatureFiniteOnlyAtCoreRadius` | src/core_module/core.rs:233-253 | in the configured Sun the temperature lookup is finite at exactly one classified depth, the core radius, because each lookup divides by the matched layer's lower radius |

## Left out

- Plotting, printing and the `main` functions (`plot_time_series_data`, `plot_results`, `src/main.rs`) are I/O.
- `rand::thread_rng` sampling. The drawn values are parameters, constrained to the ranges the Rust program draws from.
- `f64` rounding, and the infinities and NaN it produces, are not modelled. Values are exact reals. The IEEE results the Rust program can reach are `None` or `NonFinite` where they arise.
- `Reconnection.Simulation.TimeIntegration`:
  - The sampling test `(time % 0.1).abs() < EPSILON` is a parameter `sampleTick` of the elapsed time.
  - The `while time < total_time` loop has a step budget `fuel`, because the step size can shrink without bound. A run that exhausts the budget stops with `OutOfFuel`.
  - The sampling test is required to pass at elapsed time 0, as `(0.0 % 0.1).abs()` is 0.
  - The final field and particles are stated as the last state of the run, reached one `Follows` at a time. No closed form over many steps is stated, as the stencil update has none.
- `Reconnection.Simulation.CalculateMagneticFieldEvolution` requires `dt != 0`. With a zero step the Rust program divides by zero and writes NaN or infinities into the field. In `TimeIntegration` this only constrains the initial `dt`: every recomputed step is non-zero.
- `Reconnection.SecondDifference` divides the weighted sum by 12, then by `dt` twice. That equals the Rust program's single division by `12 dt^2` over the reals, though not in `f64`.
- The reconnection counter is unbounded; `usize` overflow is not modelled.
- `WaveHeating.Simulation.TimeIntegration` takes the iteration count as a parameter. The Rust program computes it as the truncating cast `(total_time / dt) as usize`.
- `SolarCore.TemperatureProfile` takes the square root as a parameter. Finiteness is decided by the sign of the radicand and a non-zero radius, not by `f64` overflow.
- `solve_lane_emden` and `calculate_density`: the Runge–Kutta loop never changes `theta` and so never terminates. Both are float numerics outside the modelled layer logic.
- `calculate_emission_spectrum` builds placeholder vectors. It is not used by the lookups.
- The generic bound `Layer<T: LayerProperties>`: `Layer` holds the sum type, so one layer type covers all three profiles.
- `src/corona_module/corona.rs`, `src/chromosphere_module/chromosphere.rs` and `src/photosphere_module/photosphere.rs` are not part of this model.
