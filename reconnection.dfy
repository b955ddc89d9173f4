/** The magnetic-reconnection simulation of the corona: particles drift on a
    one-dimensional grid of field strengths; a fourth-order stencil evolves
    the field, every cell above a threshold counts as a reconnection event,
    loses a fixed amount of strength and accelerates every particle; the
    step size adapts to the strongest cell. */
module Reconnection {
  import opened Numerics

  /** A cell strictly above this strength is a reconnection site. */
  const Threshold: real := 1.5
  /** Strength a reconnection site loses per response pass. */
  const Relaxation: real := 0.5
  /** Factor applied to every particle velocity per reconnection site. */
  const Boost: real := 1.1
  /** Numerator of the adaptive step size. */
  const DtScale: real := 0.01

  datatype Particle = Particle(position: real, velocity: real)
  {
    /** One drift step at constant velocity. */
    function Drift(dt: real): Particle
    {
      Particle(position + velocity * dt, velocity)
    }
  }

  /** Drifting through a sequence of steps, one after the other. */
  function DriftThrough(p: Particle, dts: seq<real>): Particle
  {
    if |dts| == 0 then p else DriftThrough(p, dts[..|dts| - 1]).Drift(dts[|dts| - 1])
  }

  /** Motion is exactly linear: whatever steps are taken, the particle ends
      up displaced by its velocity times their total. */
  lemma {:induction false} DriftIsLinear(p: Particle, dts: seq<real>)
    ensures DriftThrough(p, dts) == Particle(p.position + p.velocity * Sum(dts), p.velocity)
  {
    if |dts| > 0 {
      var init, last := dts[..|dts| - 1], dts[|dts| - 1];
      DriftIsLinear(p, init);
      assert p.velocity * Sum(init) + p.velocity * last == p.velocity * (Sum(init) + last);
    }
  }

  /** Every particle after one drift step. */
  function DriftedAll(ps: seq<Particle>, dt: real): (r: seq<Particle>)
    ensures |r| == |ps| && forall j :: 0 <= j < |ps| ==> r[j] == ps[j].Drift(dt)
  {
    seq(|ps|, j requires 0 <= j < |ps| => ps[j].Drift(dt))
  }

  /** Every particle with its velocity multiplied by f and its position kept. */
  function Scaled(ps: seq<Particle>, f: real): (r: seq<Particle>)
    ensures |r| == |ps| && forall j :: 0 <= j < |ps| ==> r[j] == Particle(ps[j].position, ps[j].velocity * f)
  {
    seq(|ps|, j requires 0 <= j < |ps| => Particle(ps[j].position, ps[j].velocity * f))
  }

  /** Scaling by f and then by g is scaling by f * g. */
  lemma ScaledTwice(ps: seq<Particle>, f: real, g: real)
    ensures Scaled(Scaled(ps, f), g) == Scaled(ps, f * g)
  {
    forall j | 0 <= j < |ps|
      ensures Scaled(Scaled(ps, f), g)[j] == Scaled(ps, f * g)[j]
    {
      ScaleTwice(ps[j].velocity, f, g);
    }
  }

  /** The fourth-order central difference around interior cell i, scaled by
      the square of the step size: the weighted sum over 12 dt^2, with the
      divisions taken one after the other (the same value over the reals). */
  function SecondDifference(b: seq<real>, i: int, dt: real): (r: real)
    requires 2 <= i < |b| - 2
    requires dt != 0.0
    ensures r * dt * dt * 12.0 == -b[i + 2] + 16.0 * b[i + 1] - 30.0 * b[i] + 16.0 * b[i - 1] - b[i - 2]
  {
    (-b[i + 2] + 16.0 * b[i + 1] - 30.0 * b[i] + 16.0 * b[i - 1] - b[i - 2]) / 12.0 / dt / dt
  }

  /** The update of interior cell i, from the values before the step. One
      factor dt of the scaling cancels against the step, so the cell moves by
      the weighted sum over 12 dt. */
  function StencilAt(b: seq<real>, i: int, dt: real): (r: real)
    requires 2 <= i < |b| - 2
    requires dt != 0.0
    ensures (r - b[i]) * dt * 12.0 == -b[i + 2] + 16.0 * b[i + 1] - 30.0 * b[i] + 16.0 * b[i - 1] - b[i - 2]
  {
    b[i] + dt * SecondDifference(b, i, dt)
  }

  /** The stencil coefficients sum to zero, so a uniform neighbourhood is a
      fixed point of the update. */
  lemma StencilOfUniform(b: seq<real>, i: int, dt: real, c: real)
    requires 2 <= i < |b| - 2 && dt != 0.0
    requires b[i - 2] == b[i - 1] == b[i] == b[i + 1] == b[i + 2] == c
    ensures StencilAt(b, i, dt) == c
  {
    var weighted := (-b[i + 2] + 16.0 * b[i + 1] - 30.0 * b[i] + 16.0 * b[i - 1] - b[i - 2]) / 12.0;
    assert weighted == 0.0;
    ZeroQuotient(weighted, dt);
    ZeroQuotient(weighted / dt, dt);
  }

  /** Number of reconnection sites, counted left to right. */
  function CountAbove(s: seq<real>): (r: nat)
    ensures r <= |s|
  {
    if |s| == 0 then 0
    else CountAbove(s[..|s| - 1]) + (if s[|s| - 1] > Threshold then 1 else 0)
  }

  /** The indices of the reconnection sites. */
  ghost function Sites(s: seq<real>): set<int>
  {
    set i | 0 <= i < |s| && s[i] > Threshold
  }

  /** The running count is the number of sites. */
  lemma {:induction false} CountAboveIsSiteCount(s: seq<real>)
    ensures CountAbove(s) == |Sites(s)|
  {
    if |s| > 0 {
      var init := s[..|s| - 1];
      CountAboveIsSiteCount(init);
      if s[|s| - 1] > Threshold {
        assert Sites(s) == Sites(init) + {|s| - 1};
      } else {
        assert Sites(s) == Sites(init);
      }
    }
  }

  /** No event is detected exactly when no cell is above the threshold. */
  lemma {:induction false} NoSitesIffAllAtMostThreshold(s: seq<real>)
    ensures CountAbove(s) == 0 <==> forall i :: 0 <= i < |s| ==> s[i] <= Threshold
  {
    CountAboveIsSiteCount(s);
    if exists i :: 0 <= i < |s| && s[i] > Threshold {
      var i :| 0 <= i < |s| && s[i] > Threshold;
      assert i in Sites(s);
    } else {
      assert Sites(s) == {};
    }
  }

  /** The cells whose strength went down between two snapshots. */
  ghost function Lowered(before: seq<real>, after: seq<real>): set<int>
    requires |before| == |after|
  {
    set i | 0 <= i < |before| && after[i] < before[i]
  }

  /** When the response pass relaxes a field, the cells it lowers are exactly
      the sites the detection pass counted on the same field. */
  lemma LoweredCellsAreCounted(before: seq<real>, after: seq<real>)
    requires |before| == |after|
    requires forall i :: 0 <= i < |before| ==>
      after[i] == if before[i] > Threshold then before[i] - Relaxation else before[i]
    ensures |Lowered(before, after)| == CountAbove(before)
  {
    assert Lowered(before, after) == Sites(before);
    CountAboveIsSiteCount(before);
  }

  /** The factor applied to every velocity by k reconnection sites is at
      least 1, and exactly 1 only when there is no site. */
  lemma BoostFactor(k: nat)
    ensures Pow(Boost, k) >= 1.0
    ensures Pow(Boost, k) == 1.0 <==> k == 0
  {
    PowGrowth(Boost, k);
  }

  /** The adaptive step size for the strongest cell. */
  function NextDt(maxStrength: real): (r: real)
    requires 1.0 + maxStrength != 0.0
    ensures r * (1.0 + maxStrength) == DtScale
  {
    DtScale / (1.0 + maxStrength)
  }

  /** The adaptive step never vanishes, is positive while the strongest cell
      exceeds -1, and shrinks strictly as the strongest cell grows. */
  lemma NextDtProperties(m1: real, m2: real)
    requires 1.0 + m1 != 0.0
    ensures NextDt(m1) != 0.0
    ensures m1 > -1.0 ==> NextDt(m1) > 0.0
    ensures -1.0 < m1 < m2 ==> NextDt(m2) < NextDt(m1)
    ensures m1 >= 0.0 ==> NextDt(m1) <= DtScale
  {
    assert NextDt(m1) * (1.0 + m1) == DtScale;
    if m1 > -1.0 {
      QuotientPositive(DtScale, 1.0 + m1);
    }
    if -1.0 < m1 < m2 {
      QuotientDecreasing(DtScale, 1.0 + m1, 1.0 + m2);
    }
    if m1 >= 0.0 {
      QuotientAtMost(DtScale, 1.0 + m1, DtScale);
    }
  }

  lemma QuotientPositive(a: real, x: real)
    requires a > 0.0 && x > 0.0
    ensures a / x > 0.0
  {
  }

  /** For a positive numerator, the larger positive denominator gives the
      smaller quotient. */
  lemma QuotientDecreasing(a: real, x: real, y: real)
    requires a > 0.0 && 0.0 < x < y
    ensures a / y < a / x
  {
    var qx, qy := a / x, a / y;
    assert qx * x == a && qy * y == a;
    QuotientPositive(a, y);
    assert qy * x < qy * y;
    assert (qx - qy) * x > 0.0;
  }

  /** The recorded average of one run: total sampled strength over samples
      times cells; `None` stands for the NaN of 0.0 / 0.0 when no sample was
      taken. */
  function SampleAverage(totalStrength: real, samples: nat, cells: nat): (r: Option<real>)
    ensures r.Some? <==> samples > 0 && cells > 0
  {
    if samples == 0 || cells == 0 then None
    else Some(totalStrength / (samples as real * cells as real))
  }

  /** The field the evolution pass leaves: the stencil update on the
      interior cells, 0.0 on the two cells at each end. */
  function Evolved(b: seq<real>, dt: real): (r: seq<real>)
    requires dt != 0.0
    ensures |r| == |b|
  {
    seq(|b|, i requires 0 <= i < |b| => if 2 <= i < |b| - 2 then StencilAt(b, i, dt) else 0.0)
  }

  /** The field the response pass leaves: every site loses `Relaxation`. */
  function Relaxed(e: seq<real>): (r: seq<real>)
    ensures |r| == |e|
  {
    seq(|e|, i requires 0 <= i < |e| => if e[i] > Threshold then e[i] - Relaxation else e[i])
  }

  /** The state the loop of `TimeIntegration` is in after one step: the
      elapsed time `start` the step began at, the field its evolution pass
      left, and then what the whole step left: the field, the particles,
      the event counter, the number of samples, the sampled total, the new
      step size and the new elapsed time. */
  datatype Snapshot = Snapshot(start: real, evolved: seq<real>, field: seq<real>, swarm: seq<Particle>,
                               events: nat, samples: nat, total: real, dt: real, time: real)

  /** The state before the first step: no sample yet, elapsed time 0. */
  function Origin(field: seq<real>, swarm: seq<Particle>, events: nat, dt: real): Snapshot
  {
    Snapshot(0.0, field, field, swarm, events, 0, 0.0, dt, 0.0)
  }

  /** `s` is one pass of the loop from `prev`: the loop runs because the
      elapsed time is below the total time; the four passes act with the
      step size of `prev`; a sample is taken when the elapsed time passes
      the sampling test; the step size is recomputed from the strongest
      cell of the new field, and the elapsed time advances by it. */
  ghost predicate Follows(totalTime: real, sampleTick: real -> bool, prev: Snapshot, s: Snapshot)
  {
    && prev.time < totalTime && prev.dt != 0.0
    && s.start == prev.time
    && s.evolved == Evolved(prev.field, prev.dt)
    && s.field == Relaxed(s.evolved)
    && s.swarm == Scaled(DriftedAll(prev.swarm, prev.dt), Pow(Boost, CountAbove(s.evolved)))
    && s.events == prev.events + CountAbove(s.evolved)
    && s.samples == (if sampleTick(prev.time) then prev.samples + 1 else prev.samples)
    && s.total == (if sampleTick(prev.time) then prev.total + Sum(s.field) else prev.total)
    && |s.field| > 0 && s.field[0] == 0.0
    && s.dt == NextDt(MaxOf(s.field).value)
    && s.time == prev.time + s.dt
  }

  /** Every state of `run` follows from the one before it, the first from
      `origin`. */
  ghost predicate Run(totalTime: real, sampleTick: real -> bool, origin: Snapshot, run: seq<Snapshot>)
  {
    && (|run| > 0 ==> Follows(totalTime, sampleTick, origin, run[0]))
    && (forall k :: 0 < k < |run| ==> Follows(totalTime, sampleTick, run[k - 1], run[k]))
  }

  /** The state a run from `origin` is in. */
  function Last(origin: Snapshot, run: seq<Snapshot>): Snapshot
  {
    if |run| == 0 then origin else run[|run| - 1]
  }

  lemma RunExtend(totalTime: real, sampleTick: real -> bool, origin: Snapshot, run: seq<Snapshot>, s: Snapshot)
    requires Run(totalTime, sampleTick, origin, run)
    requires Follows(totalTime, sampleTick, Last(origin, run), s)
    ensures Run(totalTime, sampleTick, origin, run + [s]) && Last(origin, run + [s]) == s
  {
    var run' := run + [s];
    forall k | 0 < k < |run'|
      ensures Follows(totalTime, sampleTick, run'[k - 1], run'[k])
    {
      if k < |run| {
        assert run'[k - 1] == run[k - 1] && run'[k] == run[k];
      }
    }
  }

  /** A prefix of a run is a run. */
  lemma {:induction false} RunPrefix(totalTime: real, sampleTick: real -> bool, origin: Snapshot, run: seq<Snapshot>, n: nat)
    requires Run(totalTime, sampleTick, origin, run) && n <= |run|
    ensures Run(totalTime, sampleTick, origin, run[..n])
  {
    var init := run[..n];
    forall k | 0 < k < |init|
      ensures Follows(totalTime, sampleTick, init[k - 1], init[k])
    {
      assert init[k - 1] == run[k - 1] && init[k] == run[k];
    }
    if n > 0 {
      assert init[0] == run[0];
    }
  }

  /** The reconnection events a run counted: the sites of every evolved
      field. */
  function TotalEvents(run: seq<Snapshot>): nat
  {
    if |run| == 0 then 0 else TotalEvents(run[..|run| - 1]) + CountAbove(run[|run| - 1].evolved)
  }

  /** The number of steps whose starting time passes the sampling test. */
  function SampleCount(run: seq<Snapshot>, sampleTick: real -> bool): (r: nat)
    ensures r <= |run|
  {
    if |run| == 0 then 0
    else SampleCount(run[..|run| - 1], sampleTick) + (if sampleTick(run[|run| - 1].start) then 1 else 0)
  }

  /** The sum of the field totals over the steps whose starting time passes
      the sampling test. */
  function SampledTotal(run: seq<Snapshot>, sampleTick: real -> bool): real
  {
    if |run| == 0 then 0.0
    else
      SampledTotal(run[..|run| - 1], sampleTick)
      + (if sampleTick(run[|run| - 1].start) then Sum(run[|run| - 1].field) else 0.0)
  }

  /** The counters a run leaves: the event counter grew by the sites of
      every evolved field, and the samples are the sampled steps and the
      sum of their field totals. */
  lemma {:induction false} RunTotals(totalTime: real, sampleTick: real -> bool, origin: Snapshot, run: seq<Snapshot>)
    requires Run(totalTime, sampleTick, origin, run)
    ensures Last(origin, run).events == origin.events + TotalEvents(run)
    ensures Last(origin, run).samples == origin.samples + SampleCount(run, sampleTick)
    ensures Last(origin, run).total == origin.total + SampledTotal(run, sampleTick)
  {
    if |run| > 0 {
      var init := run[..|run| - 1];
      RunPrefix(totalTime, sampleTick, origin, run, |run| - 1);
      RunTotals(totalTime, sampleTick, origin, init);
      if |init| > 0 {
        assert Follows(totalTime, sampleTick, run[|run| - 2], run[|run| - 1]);
      }
    }
  }

  /** Every step of a run from elapsed time 0 starts at a non-negative
      time below the total time, takes a step size in (0, 0.01] and ends
      that much later. */
  lemma RunTimes(totalTime: real, sampleTick: real -> bool, origin: Snapshot, run: seq<Snapshot>)
    requires Run(totalTime, sampleTick, origin, run) && origin.time == 0.0
    ensures forall k :: 0 <= k < |run| ==>
      0.0 <= run[k].start < totalTime && 0.0 < run[k].dt <= DtScale && run[k].time == run[k].start + run[k].dt
  {
    forall k | 0 <= k < |run|
      ensures 0.0 <= run[k].start < totalTime && 0.0 < run[k].dt <= DtScale && run[k].time == run[k].start + run[k].dt
    {
      RunTime(totalTime, sampleTick, origin, run, k);
    }
  }

  lemma {:induction false} RunTime(totalTime: real, sampleTick: real -> bool, origin: Snapshot, run: seq<Snapshot>, k: nat)
    requires Run(totalTime, sampleTick, origin, run) && origin.time == 0.0 && k < |run|
    ensures 0.0 <= run[k].start < totalTime && 0.0 < run[k].dt <= DtScale && run[k].time == run[k].start + run[k].dt
  {
    var prev := if k == 0 then origin else run[k - 1];
    assert Follows(totalTime, sampleTick, prev, run[k]);
    var m := MaxOf(run[k].field).value;
    assert run[k].field[0] == 0.0;
    NextDtProperties(m, m);
    if k > 0 {
      RunTime(totalTime, sampleTick, origin, run, k - 1);
    }
  }

  /** A run whose first step starts at a sampled time takes a sample. */
  lemma {:induction false} SampleCountPositive(run: seq<Snapshot>, sampleTick: real -> bool)
    requires |run| > 0 && sampleTick(run[0].start)
    ensures SampleCount(run, sampleTick) > 0
  {
    if |run| > 1 {
      var init := run[..|run| - 1];
      assert init[0] == run[0];
      SampleCountPositive(init, sampleTick);
    }
  }

  /** Why a run of `TimeIntegration` ended. */
  datatype Stop =
    | Finished   // elapsed time reached the total time
    | OutOfFuel  // the step budget was used up first

  class Simulation {
    var particles: array<Particle>
    var strength: array<real>
    var dt: real
    var totalTime: real
    var reconnectionEvents: nat
    var timeSeries: seq<(real, Option<real>)>

    /** `positions` are the draws from [0, numCells); drawing from an empty
        range panics, so no particle can be asked for when numCells is 0. */
    constructor (numParticles: nat, numCells: nat, dt: real, totalTime: real, positions: seq<real>)
      requires |positions| == numParticles
      requires forall i :: 0 <= i < numParticles ==> 0.0 <= positions[i] < numCells as real
      ensures fresh(particles) && fresh(strength)
      ensures particles.Length == numParticles
      ensures forall i :: 0 <= i < numParticles ==> particles[i] == Particle(positions[i], 0.0)
      ensures strength.Length == numCells
      ensures forall i :: 0 <= i < numCells ==> strength[i] == 0.0
      ensures this.dt == dt && this.totalTime == totalTime
      ensures reconnectionEvents == 0 && timeSeries == []
    {
      var ps := new Particle[numParticles];
      for i := 0 to numParticles
        invariant forall j :: 0 <= j < i ==> ps[j] == Particle(positions[j], 0.0)
      {
        ps[i] := Particle(positions[i], 0.0);
      }
      particles := ps;
      strength := new real[numCells](_ => 0.0);
      this.dt := dt;
      this.totalTime := totalTime;
      reconnectionEvents := 0;
      timeSeries := [];
    }

    /** Sets every cell to the uniform strength 1.0. */
    method InitializeMagneticField()
      modifies strength
      ensures forall i :: 0 <= i < strength.Length ==> strength[i] == 1.0
    {
      for i := 0 to strength.Length
        invariant forall j :: 0 <= j < i ==> strength[j] == 1.0
      {
        strength[i] := 1.0;
      }
    }

    /** Redraws every particle: positions from [0, 100), velocities from
        [-1, 1). */
    method DetermineInitialParticleDistribution(positions: seq<real>, velocities: seq<real>)
      requires |positions| == |velocities| == particles.Length
      requires forall i :: 0 <= i < |positions| ==> 0.0 <= positions[i] < 100.0
      requires forall i :: 0 <= i < |velocities| ==> -1.0 <= velocities[i] < 1.0
      modifies particles
      ensures forall i :: 0 <= i < particles.Length ==> particles[i] == Particle(positions[i], velocities[i])
    {
      for i := 0 to particles.Length
        invariant forall j :: 0 <= j < i ==> particles[j] == Particle(positions[j], velocities[j])
      {
        particles[i] := Particle(positions[i], velocities[i]);
      }
    }

    /** Replaces the field by a fresh array: interior cells get the stencil
        update computed from the old values, the two cells at each end are
        0.0. Fewer than two cells underflow the loop bound, which panics. */
    method CalculateMagneticFieldEvolution()
      requires strength.Length >= 2
      requires dt != 0.0
      modifies this
      ensures particles == old(particles) && dt == old(dt) && totalTime == old(totalTime)
      ensures reconnectionEvents == old(reconnectionEvents) && timeSeries == old(timeSeries)
      ensures fresh(strength) && strength.Length == old(strength.Length)
      ensures forall i :: 0 <= i < strength.Length && (i < 2 || i >= strength.Length - 2) ==> strength[i] == 0.0
      ensures forall i :: 2 <= i < strength.Length - 2 ==> strength[i] == StencilAt(old(strength[..]), i, dt)
    {
      var n := strength.Length;
      var b := strength[..];
      var newStrengths := new real[n](_ => 0.0);
      var i := 2;
      while i < n - 2
        invariant 2 <= i && (i == 2 || i <= n - 2)
        invariant forall j :: 0 <= j < n && (j < 2 || j >= i) ==> newStrengths[j] == 0.0
        invariant forall j :: 2 <= j < i && j < n - 2 ==> newStrengths[j] == StencilAt(b, j, dt)
        modifies newStrengths
      {
        var d2 := SecondDifference(b, i, dt);
        newStrengths[i] := b[i] + dt * d2;
        i := i + 1;
      }
      strength := newStrengths;
    }

    /** Moves every particle by its velocity times the step size. */
    method ModelParticleDynamics()
      modifies particles
      ensures forall i :: 0 <= i < particles.Length ==> particles[i] == old(particles[i]).Drift(dt)
      ensures forall i :: 0 <= i < particles.Length ==>
        particles[i].position == old(particles[i].position) + old(particles[i].velocity) * dt &&
        particles[i].velocity == old(particles[i].velocity)
    {
      for i := 0 to particles.Length
        invariant forall j :: 0 <= j < i ==> particles[j] == old(particles[j]).Drift(dt)
        invariant forall j :: i <= j < particles.Length ==> particles[j] == old(particles[j])
      {
        particles[i] := Particle(particles[i].position + particles[i].velocity * dt, particles[i].velocity);
      }
    }

    /** Adds one to the event counter per cell strictly above the threshold. */
    method DetectReconnectionEvents()
      modifies this`reconnectionEvents
      ensures reconnectionEvents == old(reconnectionEvents) + CountAbove(strength[..])
    {
      for i := 0 to strength.Length
        invariant reconnectionEvents == old(reconnectionEvents) + CountAbove(strength[..i])
      {
        assert strength[..i + 1][..i] == strength[..i];
        if strength[i] > Threshold {
          reconnectionEvents := reconnectionEvents + 1;
        }
      }
      assert strength[..strength.Length] == strength[..];
    }

    /** Each cell above the threshold loses `Relaxation` once, and for each
        such cell every particle velocity is multiplied by `Boost`. */
    method UpdateMagneticFieldAndParticles()
      modifies strength, particles
      ensures forall i :: 0 <= i < strength.Length ==>
        strength[i] == if old(strength[i]) > Threshold then old(strength[i]) - Relaxation else old(strength[i])
      ensures particles[..] == Scaled(old(particles[..]), Pow(Boost, CountAbove(old(strength[..]))))
    {
      ghost var b, p0 := strength[..], particles[..];
      for i := 0 to strength.Length
        invariant forall k :: 0 <= k < i ==>
          strength[k] == if b[k] > Threshold then b[k] - Relaxation else b[k]
        invariant forall k :: i <= k < strength.Length ==> strength[k] == b[k]
        invariant particles[..] == Scaled(p0, Pow(Boost, CountAbove(b[..i])))
      {
        assert b[..i + 1][..i] == b[..i];
        if strength[i] > Threshold {
          strength[i] := strength[i] - Relaxation;
          AccelerateParticles();
          ScaledTwice(p0, Pow(Boost, CountAbove(b[..i])), Boost);
        }
      }
      assert b[..strength.Length] == b;
    }

    /** The inner pass of the response: multiplies every particle velocity by
        `Boost` once. */
    method AccelerateParticles()
      modifies particles
      ensures particles[..] == Scaled(old(particles[..]), Boost)
    {
      for j := 0 to particles.Length
        invariant forall k :: 0 <= k < j ==>
          particles[k] == Particle(old(particles[k].position), old(particles[k].velocity) * Boost)
        invariant forall k :: j <= k < particles.Length ==> particles[k] == old(particles[k])
      {
        particles[j] := Particle(particles[j].position, particles[j].velocity * Boost);
      }
    }

    /** One step of the integration: the four passes in order. `evolved` is
        the field the evolution pass leaves, on which detection counts and
        the response acts. */
    method Step() returns (ghost evolved: seq<real>)
      requires strength.Length >= 2 && dt != 0.0
      modifies this, particles, strength
      ensures particles == old(particles) && dt == old(dt) && totalTime == old(totalTime)
      ensures timeSeries == old(timeSeries)
      ensures fresh(strength) && strength.Length == old(strength.Length) == |evolved|
      ensures forall i :: 0 <= i < |evolved| && (i < 2 || i >= |evolved| - 2) ==> evolved[i] == 0.0
      ensures forall i :: 2 <= i < |evolved| - 2 ==> evolved[i] == StencilAt(old(strength[..]), i, dt)
      ensures evolved == Evolved(old(strength[..]), dt)
      ensures reconnectionEvents == old(reconnectionEvents) + CountAbove(evolved)
      ensures forall i :: 0 <= i < strength.Length ==>
        strength[i] == if evolved[i] > Threshold then evolved[i] - Relaxation else evolved[i]
      ensures strength[..] == Relaxed(evolved)
      ensures particles[..] == Scaled(DriftedAll(old(particles[..]), dt), Pow(Boost, CountAbove(evolved)))
      ensures strength[0] == 0.0
    {
      CalculateMagneticFieldEvolution();
      evolved := strength[..];
      assert evolved == Evolved(old(strength[..]), dt);
      ModelParticleDynamics();
      assert particles[..] == DriftedAll(old(particles[..]), dt);
      DetectReconnectionEvents();
      UpdateMagneticFieldAndParticles();
      assert strength[..] == Relaxed(evolved);
    }

    /** The adaptive step size from the strongest cell. Every step leaves the
        first cell at 0, so the strongest cell is at least 0 and the step lies
        in (0, 0.01]. */
    method AdaptStepSize()
      requires strength.Length > 0 && strength[0] == 0.0
      modifies this`dt
      ensures 1.0 + MaxOf(strength[..]).value >= 1.0
      ensures dt == NextDt(MaxOf(strength[..]).value)
      ensures 0.0 < dt <= DtScale
    {
      var maxStrength := MaxOf(strength[..]).value;
      assert strength[..][0] == 0.0;
      NextDtProperties(maxStrength, maxStrength);
      dt := NextDt(maxStrength);
    }

    /** One step of the run: the four passes, then the new step size.
        `field` is the field the step leaves. */
    method StepAndAdapt() returns (field: seq<real>, ghost evolved: seq<real>)
      requires strength.Length >= 2 && dt != 0.0
      modifies this, particles, strength
      ensures particles == old(particles) && totalTime == old(totalTime) && timeSeries == old(timeSeries)
      ensures fresh(strength) && strength.Length == old(strength.Length)
      ensures evolved == Evolved(old(strength[..]), old(dt)) && field == Relaxed(evolved) && field == strength[..]
      ensures reconnectionEvents == old(reconnectionEvents) + CountAbove(evolved)
      ensures particles[..] == Scaled(DriftedAll(old(particles[..]), old(dt)), Pow(Boost, CountAbove(evolved)))
      ensures field[0] == 0.0 && 1.0 + MaxOf(field).value >= 1.0
      ensures dt == NextDt(MaxOf(field).value) && 0.0 < dt <= DtScale
    {
      evolved := Step();
      AdaptStepSize();
      field := strength[..];
    }

    /** The object is in state `s` and the loop variables of
        `TimeIntegration` are `time`, `samples` and `total`. */
    ghost predicate Holds(s: Snapshot, time: real, samples: nat, total: real)
      reads this, strength, particles
    {
      && strength[..] == s.field && particles[..] == s.swarm && reconnectionEvents == s.events
      && dt == s.dt && time == s.time && samples == s.samples && total == s.total
    }

    /** One pass of the loop of `TimeIntegration` from the state `prev`:
        the four passes, a sample when the elapsed time `time` passes the
        sampling test, the new step size, and the new elapsed time. */
    method Advance(sampleTick: real -> bool, samples: nat, totalStrength: real, time: real, ghost prev: Snapshot)
      returns (samples': nat, totalStrength': real, time': real, ghost next: Snapshot)
      requires strength.Length >= 2 && dt != 0.0 && time < totalTime
      requires Holds(prev, time, samples, totalStrength)
      modifies this, particles, strength
      ensures particles == old(particles) && totalTime == old(totalTime) && timeSeries == old(timeSeries)
      ensures fresh(strength) && strength.Length == old(strength.Length) && 0.0 < dt <= DtScale
      ensures Follows(totalTime, sampleTick, prev, next)
      ensures Holds(next, time', samples', totalStrength')
    {
      var field;
      ghost var evolved;
      field, evolved := StepAndAdapt();
      if sampleTick(time) {
        totalStrength', samples' := totalStrength + Sum(field), samples + 1;
      } else {
        totalStrength', samples' := totalStrength, samples;
      }
      time' := time + dt;
      next := Snapshot(time, evolved, field, particles[..], reconnectionEvents, samples', totalStrength', dt, time');
    }

    /** Runs the loop while the elapsed time is below the total time and
        fewer than `fuel` steps were taken. `run` holds the state after
        every step. */
    method RunSteps(fuel: nat, sampleTick: real -> bool)
      returns (steps: nat, samples: nat, totalStrength: real, time: real, ghost run: seq<Snapshot>)
      requires totalTime > 0.0 ==> strength.Length >= 2 && dt != 0.0
      modifies this, particles, strength
      ensures particles == old(particles) && totalTime == old(totalTime) && timeSeries == old(timeSeries)
      ensures strength.Length == old(strength.Length)
      ensures steps == |run| <= fuel && (time < totalTime ==> steps == fuel)
      ensures Run(totalTime, sampleTick, Origin(old(strength[..]), old(particles[..]), old(reconnectionEvents), old(dt)), run)
      ensures Holds(Last(Origin(old(strength[..]), old(particles[..]), old(reconnectionEvents), old(dt)), run),
                    time, samples, totalStrength)
      ensures steps == 0 ==> strength == old(strength)
    {
      ghost var origin := Origin(strength[..], particles[..], reconnectionEvents, dt);
      time := 0.0;
      steps, samples, totalStrength := 0, 0, 0.0;
      run := [];
      while time < totalTime && steps < fuel
        invariant particles == old(particles) && totalTime == old(totalTime) && timeSeries == old(timeSeries)
        invariant fresh(strength) || strength == old(strength)
        invariant strength.Length == old(strength.Length)
        invariant totalTime > 0.0 ==> strength.Length >= 2 && dt != 0.0
        invariant steps == |run| <= fuel
        invariant Run(totalTime, sampleTick, origin, run)
        invariant Holds(Last(origin, run), time, samples, totalStrength)
        invariant steps == 0 ==> strength == old(strength)
        decreases fuel - steps
      {
        ghost var next;
        samples, totalStrength, time, next := Advance(sampleTick, samples, totalStrength, time, Last(origin, run));
        RunExtend(totalTime, sampleTick, origin, run, next);
        run := run + [next];
        steps := steps + 1;
      }
    }

    /** Runs the loop, then records one `(totalTime, average)` entry. The
        sampling test passes at elapsed time 0, so a run with a positive
        total time and budget takes a step, samples it and records an
        average. */
    method TimeIntegration(fuel: nat, sampleTick: real -> bool)
      returns (steps: nat, samples: nat, totalStrength: real, elapsed: real, stopped: Stop,
               ghost run: seq<Snapshot>)
      requires sampleTick(0.0)
      requires totalTime > 0.0 ==> strength.Length >= 2 && dt != 0.0
      modifies this, particles, strength
      ensures timeSeries == old(timeSeries) + [(totalTime, SampleAverage(totalStrength, samples, strength.Length))]
      ensures particles == old(particles) && strength.Length == old(strength.Length)
      ensures totalTime == old(totalTime)
      ensures steps <= fuel && |run| == steps
      ensures Run(totalTime, sampleTick, Origin(old(strength[..]), old(particles[..]), old(reconnectionEvents), old(dt)), run)
      ensures Holds(Last(Origin(old(strength[..]), old(particles[..]), old(reconnectionEvents), old(dt)), run),
                    elapsed, samples, totalStrength)
      ensures reconnectionEvents == old(reconnectionEvents) + TotalEvents(run)
      ensures samples == SampleCount(run, sampleTick) && totalStrength == SampledTotal(run, sampleTick)
      ensures forall k :: 0 <= k < steps ==>
        0.0 <= run[k].start < totalTime && 0.0 < run[k].dt <= DtScale && run[k].time == run[k].start + run[k].dt
      ensures totalTime > 0.0 && fuel > 0 ==> steps > 0
      ensures steps > 0 ==> samples > 0 && SampleAverage(totalStrength, samples, strength.Length).Some?
      ensures totalTime <= 0.0 ==> steps == 0 && stopped == Finished
      ensures steps == 0 ==> elapsed == 0.0 && strength == old(strength)
      ensures stopped == Finished ==> elapsed >= totalTime
      ensures stopped == OutOfFuel ==> steps == fuel && elapsed < totalTime
    {
      ghost var origin := Origin(strength[..], particles[..], reconnectionEvents, dt);
      steps, samples, totalStrength, elapsed, run := RunSteps(fuel, sampleTick);
      stopped := if elapsed < totalTime then OutOfFuel else Finished;
      timeSeries := timeSeries + [(totalTime, SampleAverage(totalStrength, samples, strength.Length))];
      RunTotals(totalTime, sampleTick, origin, run);
      RunTimes(totalTime, sampleTick, origin, run);
      if steps > 0 {
        assert run[0].start == 0.0;
        SampleCountPositive(run, sampleTick);
      }
    }
  }
}
