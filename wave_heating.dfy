/** The wave-heating variant of the corona simulation: the particle and
    field state of the reconnection model extended with particle attributes,
    a per-cell field direction and three wave ensembles. Each iteration of
    the integration drifts the particles, damps and advances the Alfvén
    waves and raises every field cell by a fixed forcing. */
module WaveHeating {
  import opened Numerics

  /** The value of `std::f64::consts::PI`. */
  const Pi: real := 3.141592653589793
  /** Alfvén amplitudes are multiplied by `1 - DecayRate * dt` per iteration. */
  const DecayRate: real := 0.1
  /** Every field cell grows by `Forcing * dt` per iteration. */
  const Forcing: real := 0.1

  datatype Particle = Particle(position: real, velocity: real, mass: real, charge: real, radius: real, spin: real)
  {
    /** One iteration of the integration: drift at constant velocity. */
    function Advance(dt: real): Particle
    {
      this.(position := position + velocity * dt)
    }
  }

  /** A particle as both initialisers create it: mass 1, charge 1, radius 0.1
      and spin 0.5. */
  function SeededParticle(position: real, velocity: real): Particle
  {
    Particle(position, velocity, 1.0, 1.0, 0.1, 0.5)
  }

  datatype AlfvenWave = AlfvenWave(position: real, amplitude: real, phase: real, frequency: real, velocity: real)
  {
    /** One iteration of the integration: geometric damping of the amplitude
        and phase advance by the angular frequency times the step. */
    function Advance(dt: real): AlfvenWave
    {
      this.(amplitude := amplitude * Damping(dt), phase := phase + PhaseStep(frequency, dt))
    }
  }

  /** The factor an Alfvén amplitude is multiplied by per iteration. */
  function Damping(dt: real): real
  {
    1.0 - DecayRate * dt
  }

  /** The phase an Alfvén wave of the given frequency advances per iteration. */
  function PhaseStep(frequency: real, dt: real): real
  {
    2.0 * Pi * frequency * dt
  }

  datatype AcousticWave = AcousticWave(position: real, velocity: real)

  datatype MagnetoAcousticWave = MagnetoAcousticWave(position: real, velocity: real)

  /** The direction of the field in a cell. */
  type Direction = (real, real, real)

  /** The ranges an Alfvén wave is drawn from: position [0, 100), amplitude
      [0, 1), phase [0, 2 pi), frequency [0, 1), velocity [-1, 1). */
  predicate IsAlfvenDraw(w: AlfvenWave)
  {
    && 0.0 <= w.position < 100.0
    && 0.0 <= w.amplitude < 1.0
    && 0.0 <= w.phase < 2.0 * Pi
    && 0.0 <= w.frequency < 1.0
    && -1.0 <= w.velocity < 1.0
  }

  /** A particle after n iterations, in closed form. */
  function ParticleAfter(p: Particle, n: nat, dt: real): Particle
  {
    p.(position := p.position + n as real * (p.velocity * dt))
  }

  /** An Alfvén wave after n iterations, in closed form. */
  function WaveAfter(w: AlfvenWave, n: nat, dt: real): AlfvenWave
  {
    w.(amplitude := w.amplitude * Pow(Damping(dt), n),
       phase := w.phase + n as real * PhaseStep(w.frequency, dt))
  }

  /** A field cell after n iterations, in closed form. */
  function CellAfter(s: real, n: nat, dt: real): real
  {
    s + n as real * (Forcing * dt)
  }

  /** One more iteration on top of n of them is n + 1 of them. */
  lemma ParticleAfterStep(p: Particle, n: nat, dt: real)
    ensures ParticleAfter(p, n, dt).Advance(dt) == ParticleAfter(p, n + 1, dt)
  {
    OneMoreStep(p.position, n, p.velocity * dt);
  }

  lemma WaveAfterStep(w: AlfvenWave, n: nat, dt: real)
    ensures WaveAfter(w, n, dt).Advance(dt) == WaveAfter(w, n + 1, dt)
  {
    var stepped, closed := WaveAfter(w, n, dt).Advance(dt), WaveAfter(w, n + 1, dt);
    ScaleTwice(w.amplitude, Pow(Damping(dt), n), Damping(dt));
    assert stepped.amplitude == closed.amplitude;
    var x := PhaseStep(w.frequency, dt);
    assert WaveAfter(w, n, dt).frequency == w.frequency;
    assert stepped.phase == w.phase + n as real * x + x;
    OneMoreStep(w.phase, n, x);
    assert stepped.phase == closed.phase;
  }

  lemma CellAfterStep(s: real, n: nat, dt: real)
    ensures CellAfter(s, n, dt) + Forcing * dt == CellAfter(s, n + 1, dt)
  {
    OneMoreStep(s, n, Forcing * dt);
  }

  /** n increments of x and one more are n + 1 increments. */
  lemma OneMoreStep(base: real, n: nat, x: real)
    ensures base + n as real * x + x == base + (n + 1) as real * x
  {
  }

  /** Two runs of the integration, of m and then n iterations, leave the
      same state as one run of m + n iterations. */
  lemma RunsCompose(p: Particle, w: AlfvenWave, s: real, m: nat, n: nat, dt: real)
    ensures ParticleAfter(ParticleAfter(p, m, dt), n, dt) == ParticleAfter(p, m + n, dt)
    ensures WaveAfter(WaveAfter(w, m, dt), n, dt) == WaveAfter(w, m + n, dt)
    ensures CellAfter(CellAfter(s, m, dt), n, dt) == CellAfter(s, m + n, dt)
  {
    ParticleRunsCompose(p, m, n, dt);
    StepsAdd(s, m, n, Forcing * dt);
    WaveRunsCompose(w, m, n, dt);
  }

  lemma ParticleRunsCompose(p: Particle, m: nat, n: nat, dt: real)
    ensures ParticleAfter(ParticleAfter(p, m, dt), n, dt) == ParticleAfter(p, m + n, dt)
  {
    var x := p.velocity * dt;
    assert ParticleAfter(p, m, dt).velocity == p.velocity;
    StepsAdd(p.position, m, n, x);
  }

  lemma WaveRunsCompose(w: AlfvenWave, m: nat, n: nat, dt: real)
    ensures WaveAfter(WaveAfter(w, m, dt), n, dt) == WaveAfter(w, m + n, dt)
  {
    DampingCompose(w.amplitude, m, n, dt);
    var x := PhaseStep(w.frequency, dt);
    assert WaveAfter(w, m, dt).frequency == w.frequency;
    StepsAdd(w.phase, m, n, x);
  }

  lemma DampingCompose(a: real, m: nat, n: nat, dt: real)
    ensures (a * Pow(Damping(dt), m)) * Pow(Damping(dt), n) == a * Pow(Damping(dt), m + n)
  {
    PowAdd(Damping(dt), m, n);
    ScaleTwice(a, Pow(Damping(dt), m), Pow(Damping(dt), n));
  }

  /** With a step of at most 10 the damping factor lies in [0, 1]: an
      amplitude that starts non-negative stays between zero and where it
      started. */
  lemma {:induction false} AmplitudeStaysBounded(w: AlfvenWave, n: nat, dt: real)
    requires 0.0 <= dt <= 10.0 && w.amplitude >= 0.0
    ensures 0.0 <= WaveAfter(w, n, dt).amplitude <= w.amplitude
  {
    var f := Pow(Damping(dt), n);
    PowUnitInterval(Damping(dt), n);
    ScaleBetween(w.amplitude, 0.0, f, 1.0);
  }

  /** With a step above 10 the damping factor is negative: the amplitude is
      not clamped and changes sign after one iteration. */
  lemma AmplitudeFlipsSign(w: AlfvenWave, dt: real)
    requires dt > 10.0 && w.amplitude > 0.0
    ensures WaveAfter(w, 1, dt).amplitude < 0.0
  {
    assert Pow(Damping(dt), 1) == Damping(dt);
  }

  /** At the nominal step 0.01 the damping is geometric with ratio 0.999. */
  lemma NominalDecay(w: AlfvenWave, n: nat)
    ensures WaveAfter(w, n, 0.01).amplitude == w.amplitude * Pow(0.999, n)
  {
  }

  function Velocities(ps: seq<Particle>): (r: seq<real>)
    ensures |r| == |ps| && forall i :: 0 <= i < |ps| ==> r[i] == ps[i].velocity
  {
    seq(|ps|, i requires 0 <= i < |ps| => ps[i].velocity)
  }

  function Amplitudes(ws: seq<AlfvenWave>): (r: seq<real>)
    ensures |r| == |ws| && forall i :: 0 <= i < |ws| ==> r[i] == ws[i].amplitude
  {
    seq(|ws|, i requires 0 <= i < |ws| => ws[i].amplitude)
  }

  /** What a maximum and an average of the same values promise: both are
      defined exactly when there is a value; the maximum bounds every value
      and is one of them; the average times the count is the sum and does not
      exceed the maximum. */
  ghost predicate Summarises(max: Option<real>, mean: Option<real>, s: seq<real>)
  {
    && (max.Some? <==> |s| > 0)
    && (mean.Some? <==> |s| > 0)
    && (|s| > 0 ==>
          && (forall i :: 0 <= i < |s| ==> s[i] <= max.value)
          && (exists i :: 0 <= i < |s| && s[i] == max.value)
          && mean.value * |s| as real == Sum(s)
          && mean.value <= max.value)
  }

  lemma MaxAndMeanSummarise(s: seq<real>)
    ensures Summarises(MaxOf(s), Mean(s), s)
  {
    if |s| > 0 {
      MeanAtMostMax(s);
      MeanTimesCount(s);
    }
  }

  /** A field that starts uniform stays uniform: after n iterations its
      maximum and its average are both the closed form of the common start
      value. */
  lemma UniformFieldSummary(t: seq<real>, c: real, n: nat, dt: real)
    requires |t| > 0
    requires forall i :: 0 <= i < |t| ==> t[i] == CellAfter(c, n, dt)
    ensures MaxOf(t) == Mean(t) == Some(CellAfter(c, n, dt))
  {
    MeanOfConstant(t, CellAfter(c, n, dt));
  }

  datatype Analysis = Analysis(
    maxVelocity: Option<real>, averageVelocity: Option<real>,
    maxAmplitude: Option<real>, averageAmplitude: Option<real>,
    maxFieldStrength: Option<real>, averageFieldStrength: Option<real>)

  class Simulation {
    var particles: seq<Particle>
    var strength: seq<real>
    var direction: seq<Direction>
    var dt: real
    var totalTime: real
    var numParticles: nat
    var numCells: nat
    var numAlfvenWaves: nat
    var numAcousticWaves: nat
    var numMagnetoAcousticWaves: nat
    var alfvenWaves: seq<AlfvenWave>
    var acousticWaves: seq<AcousticWave>
    var magnetoAcousticWaves: seq<MagnetoAcousticWave>

    /** `positions` are the draws from [0, numCells); drawing from an empty
        range panics, so no particle can be asked for when numCells is 0. */
    constructor (numParticles: nat, numCells: nat, numAlfvenWaves: nat, numAcousticWaves: nat,
                 numMagnetoAcousticWaves: nat, dt: real, totalTime: real, positions: seq<real>)
      requires |positions| == numParticles
      requires forall i :: 0 <= i < numParticles ==> 0.0 <= positions[i] < numCells as real
      ensures |particles| == numParticles
      ensures forall i :: 0 <= i < numParticles ==> particles[i] == Particle(positions[i], 0.0, 1.0, 1.0, 0.1, 0.5)
      ensures |strength| == numCells && forall i :: 0 <= i < numCells ==> strength[i] == 0.0
      ensures |direction| == numCells && forall i :: 0 <= i < numCells ==> direction[i] == (0.0, 0.0, 1.0)
      ensures alfvenWaves == [] && acousticWaves == [] && magnetoAcousticWaves == []
      ensures this.dt == dt && this.totalTime == totalTime
      ensures this.numParticles == numParticles && this.numCells == numCells
      ensures this.numAlfvenWaves == numAlfvenWaves && this.numAcousticWaves == numAcousticWaves
      ensures this.numMagnetoAcousticWaves == numMagnetoAcousticWaves
    {
      var ps: seq<Particle> := [];
      for i := 0 to numParticles
        invariant |ps| == i
        invariant forall j :: 0 <= j < i ==> ps[j] == SeededParticle(positions[j], 0.0)
      {
        ps := ps + [SeededParticle(positions[i], 0.0)];
      }
      particles := ps;
      strength := seq(numCells, _ => 0.0);
      direction := seq(numCells, _ => (0.0, 0.0, 1.0));
      this.dt := dt;
      this.totalTime := totalTime;
      this.numParticles := numParticles;
      this.numCells := numCells;
      this.numAlfvenWaves := numAlfvenWaves;
      this.numAcousticWaves := numAcousticWaves;
      this.numMagnetoAcousticWaves := numMagnetoAcousticWaves;
      alfvenWaves, acousticWaves, magnetoAcousticWaves := [], [], [];
    }

    /** Appends `numParticles` particles drawn from positions [0, 100) and
        velocities [-1, 1) after the existing ones, which stay as they are. */
    method InitializeParticles(positions: seq<real>, velocities: seq<real>)
      requires |positions| == |velocities| == numParticles
      requires forall i :: 0 <= i < |positions| ==> 0.0 <= positions[i] < 100.0
      requires forall i :: 0 <= i < |velocities| ==> -1.0 <= velocities[i] < 1.0
      modifies this`particles
      ensures |particles| == |old(particles)| + numParticles
      ensures particles[..|old(particles)|] == old(particles)
      ensures forall i :: 0 <= i < numParticles ==>
        particles[|old(particles)| + i] == SeededParticle(positions[i], velocities[i])
    {
      ghost var p0 := particles;
      for i := 0 to numParticles
        invariant |particles| == |p0| + i
        invariant particles[..|p0|] == p0
        invariant forall j :: 0 <= j < i ==> particles[|p0| + j] == SeededParticle(positions[j], velocities[j])
      {
        particles := particles + [SeededParticle(positions[i], velocities[i])];
      }
    }

    /** Replaces the strengths by `numCells` cells of 1.0. */
    method InitializeMagneticField()
      modifies this`strength
      ensures |strength| == numCells && forall i :: 0 <= i < numCells ==> strength[i] == 1.0
    {
      strength := seq(numCells, _ => 1.0);
    }

    /** Appends the `numAlfvenWaves` drawn waves. */
    method InitializeAlfvenWaves(draws: seq<AlfvenWave>)
      requires |draws| == numAlfvenWaves
      requires forall i :: 0 <= i < |draws| ==> IsAlfvenDraw(draws[i])
      modifies this`alfvenWaves
      ensures |alfvenWaves| == |old(alfvenWaves)| + numAlfvenWaves
      ensures alfvenWaves == old(alfvenWaves) + draws
      ensures forall i :: |old(alfvenWaves)| <= i < |alfvenWaves| ==> IsAlfvenDraw(alfvenWaves[i])
    {
      ghost var w0 := alfvenWaves;
      for i := 0 to numAlfvenWaves
        invariant alfvenWaves == w0 + draws[..i]
      {
        alfvenWaves := alfvenWaves + [draws[i]];
        assert draws[..i + 1] == draws[..i] + [draws[i]];
      }
      assert draws[..numAlfvenWaves] == draws;
    }

    /** Appends the `numAcousticWaves` drawn waves: positions [0, 100),
        velocities [-1, 1). */
    method InitializeAcousticWaves(draws: seq<AcousticWave>)
      requires |draws| == numAcousticWaves
      requires forall i :: 0 <= i < |draws| ==> 0.0 <= draws[i].position < 100.0 && -1.0 <= draws[i].velocity < 1.0
      modifies this`acousticWaves
      ensures |acousticWaves| == |old(acousticWaves)| + numAcousticWaves
      ensures acousticWaves == old(acousticWaves) + draws
    {
      ghost var w0 := acousticWaves;
      for i := 0 to numAcousticWaves
        invariant acousticWaves == w0 + draws[..i]
      {
        acousticWaves := acousticWaves + [draws[i]];
        assert draws[..i + 1] == draws[..i] + [draws[i]];
      }
      assert draws[..numAcousticWaves] == draws;
    }

    /** Appends the `numMagnetoAcousticWaves` drawn waves: positions
        [0, 100), velocities [-1, 1). */
    method InitializeMagnetoAcousticWaves(draws: seq<MagnetoAcousticWave>)
      requires |draws| == numMagnetoAcousticWaves
      requires forall i :: 0 <= i < |draws| ==> 0.0 <= draws[i].position < 100.0 && -1.0 <= draws[i].velocity < 1.0
      modifies this`magnetoAcousticWaves
      ensures |magnetoAcousticWaves| == |old(magnetoAcousticWaves)| + numMagnetoAcousticWaves
      ensures magnetoAcousticWaves == old(magnetoAcousticWaves) + draws
    {
      ghost var w0 := magnetoAcousticWaves;
      for i := 0 to numMagnetoAcousticWaves
        invariant magnetoAcousticWaves == w0 + draws[..i]
      {
        magnetoAcousticWaves := magnetoAcousticWaves + [draws[i]];
        assert draws[..i + 1] == draws[..i] + [draws[i]];
      }
      assert draws[..numMagnetoAcousticWaves] == draws;
    }

    /** Runs `iterations` iterations (the truncated `totalTime / dt`). Each
        drifts every particle, damps and advances every Alfvén wave and adds
        the forcing to every field cell; nothing else changes, so the state
        after the run is the closed form after that many iterations. */
    method TimeIntegration(iterations: nat)
      modifies this`particles, this`alfvenWaves, this`strength
      ensures |particles| == |old(particles)|
      ensures forall j :: 0 <= j < |particles| ==> particles[j] == ParticleAfter(old(particles)[j], iterations, dt)
      ensures |alfvenWaves| == |old(alfvenWaves)|
      ensures forall j :: 0 <= j < |alfvenWaves| ==> alfvenWaves[j] == WaveAfter(old(alfvenWaves)[j], iterations, dt)
      ensures |strength| == |old(strength)|
      ensures forall j :: 0 <= j < |strength| ==> strength[j] == CellAfter(old(strength)[j], iterations, dt)
    {
      ghost var p0, w0, s0 := particles, alfvenWaves, strength;
      for n := 0 to iterations
        invariant |particles| == |p0| && forall j :: 0 <= j < |p0| ==> particles[j] == ParticleAfter(p0[j], n, dt)
        invariant |alfvenWaves| == |w0| && forall j :: 0 <= j < |w0| ==> alfvenWaves[j] == WaveAfter(w0[j], n, dt)
        invariant |strength| == |s0| && forall j :: 0 <= j < |s0| ==> strength[j] == CellAfter(s0[j], n, dt)
      {
        for j := 0 to |particles|
          invariant |particles| == |p0|
          invariant forall k :: 0 <= k < j ==> particles[k] == ParticleAfter(p0[k], n + 1, dt)
          invariant forall k :: j <= k < |p0| ==> particles[k] == ParticleAfter(p0[k], n, dt)
          modifies this`particles
        {
          ParticleAfterStep(p0[j], n, dt);
          particles := particles[j := particles[j].Advance(dt)];
        }
        for j := 0 to |alfvenWaves|
          invariant |alfvenWaves| == |w0|
          invariant forall k :: 0 <= k < j ==> alfvenWaves[k] == WaveAfter(w0[k], n + 1, dt)
          invariant forall k :: j <= k < |w0| ==> alfvenWaves[k] == WaveAfter(w0[k], n, dt)
          modifies this`alfvenWaves
        {
          WaveAfterStep(w0[j], n, dt);
          alfvenWaves := alfvenWaves[j := alfvenWaves[j].Advance(dt)];
        }
        for j := 0 to |strength|
          invariant |strength| == |s0|
          invariant forall k :: 0 <= k < j ==> strength[k] == CellAfter(s0[k], n + 1, dt)
          invariant forall k :: j <= k < |s0| ==> strength[k] == CellAfter(s0[k], n, dt)
          modifies this`strength
        {
          CellAfterStep(s0[j], n, dt);
          strength := strength[j := strength[j] + Forcing * dt];
        }
      }
    }

    /** The maxima and averages of particle velocity, Alfvén amplitude and
        field strength; `None` stands for the negative infinity or NaN that
        the folds give on an empty collection. */
    function AnalyzeResults(): (r: Analysis)
      reads this
      ensures Summarises(r.maxVelocity, r.averageVelocity, Velocities(particles))
      ensures Summarises(r.maxAmplitude, r.averageAmplitude, Amplitudes(alfvenWaves))
      ensures Summarises(r.maxFieldStrength, r.averageFieldStrength, strength)
    {
      var vs, amps := Velocities(particles), Amplitudes(alfvenWaves);
      MaxAndMeanSummarise(vs);
      MaxAndMeanSummarise(amps);
      MaxAndMeanSummarise(strength);
      Analysis(MaxOf(vs), Mean(vs), MaxOf(amps), Mean(amps), MaxOf(strength), Mean(strength))
    }
  }
}
