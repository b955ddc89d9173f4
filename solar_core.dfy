/** The layered structure of the Sun's interior: three layers, each a
    half-open depth interval carrying a property profile, a first-match
    classifier from depth to layer, and property lookups that dispatch on it.

    The property traits of the Rust program become one sum type with a case per
    implementation. Square roots are not modelled over the reals: the square
    root is a parameter `sqrt` of the profiles that need it. Where the `f64`
    arithmetic of a profile divides by zero or takes the root of a negative
    number, its result is an infinity or NaN, which is `NonFinite` here. */
module SolarCore {
  import opened Numerics

  /** An `f64` result: a real number, or one of the IEEE infinities and NaN. */
  datatype Value = Finite(v: real) | NonFinite

  /** `temperature * sqrt(1 - depth / radius)`. */
  function TemperatureProfile(temperature: real, depth: real, radius: real, sqrt: real -> real): (r: Value)
    ensures r.Finite? <==> radius != 0.0 && depth / radius <= 1.0
  {
    if radius == 0.0 then NonFinite
    else
      var x := 1.0 - depth / radius;
      if x < 0.0 then NonFinite else Finite(temperature * sqrt(x))
  }

  datatype LayerProperties =
    | TemperatureGradient(coreTemperature: real)
    | DensityGradient(coreDensity: real)
    | CoreProperties(temperature: real, radius: real)
  {
    /** The profile value at `depth`. `CoreProperties` ignores `coreRadius`
        and uses its own radius. */
    function Calculate(depth: real, coreRadius: real, sqrt: real -> real): (r: Value)
      ensures TemperatureGradient? ==> (r.Finite? <==> coreRadius != 0.0 && depth / coreRadius <= 1.0)
      ensures DensityGradient? ==> (r.Finite? <==> coreRadius != 0.0)
      ensures CoreProperties? ==> (r.Finite? <==> radius != 0.0 && depth / radius <= 1.0)
    {
      match this
      case TemperatureGradient(t) => TemperatureProfile(t, depth, coreRadius, sqrt)
      case DensityGradient(d) =>
        if coreRadius == 0.0 then NonFinite else Finite(d - 0.2 * d * depth / coreRadius)
      case CoreProperties(t, radius) => TemperatureProfile(t, depth, radius, sqrt)
    }

    /** Every implementation answers with the constant 0.5. */
    function OpticalDepth(wavelength: real): (r: real)
      ensures r == 0.5
    {
      0.5
    }
  }

  /** The density profile falls linearly from the core density at depth 0 to
      0.8 of it at depth `coreRadius`. */
  lemma DensityGradientEnds(d: real, coreRadius: real, sqrt: real -> real)
    requires coreRadius != 0.0
    ensures DensityGradient(d).Calculate(0.0, coreRadius, sqrt) == Finite(d)
    ensures DensityGradient(d).Calculate(coreRadius, coreRadius, sqrt) == Finite(0.8 * d)
  {
  }

  /** The density profile is `coreDensity * (1 - 0.2 * depth / coreRadius)`,
      and is undefined for a zero radius. */
  lemma DensityGradientIsLinear(d: real, depth: real, coreRadius: real, sqrt: real -> real)
    ensures coreRadius == 0.0 <==> DensityGradient(d).Calculate(depth, coreRadius, sqrt) == NonFinite
    ensures coreRadius != 0.0 ==>
      DensityGradient(d).Calculate(depth, coreRadius, sqrt) == Finite(d * (1.0 - 0.2 * depth / coreRadius))
  {
  }

  /** The optical depth does not depend on the wavelength. */
  lemma OpticalDepthIsConstant(p: LayerProperties, w1: real, w2: real)
    ensures p.OpticalDepth(w1) == p.OpticalDepth(w2) == 0.5
  {
  }

  datatype Layer = Layer(radiusMin: real, radiusMax: real, properties: LayerProperties)
  {
    predicate Contains(depth: real)
    {
      radiusMin <= depth < radiusMax
    }

    /** The layer's profile at `depth`, with `coreRadius` as the radius the
        gradient profiles divide by. */
    function CalculateProperty(depth: real, coreRadius: real, sqrt: real -> real): (r: Value)
      ensures properties.TemperatureGradient? ==> (r.Finite? <==> coreRadius != 0.0 && depth / coreRadius <= 1.0)
      ensures properties.DensityGradient? ==> (r.Finite? <==> coreRadius != 0.0)
      ensures properties.CoreProperties? ==>
        (r.Finite? <==> properties.radius != 0.0 && depth / properties.radius <= 1.0)
    {
      properties.Calculate(depth, coreRadius, sqrt)
    }
  }

  datatype LayerName = Core | RadiativeZone | ConvectiveZone

  datatype Sun = Sun(core: Layer, radiativeZone: Layer, convectiveZone: Layer)
  {
    /** The first layer, in the order core, radiative zone, convective zone,
        whose half-open interval holds `depth`. */
    function GetLayer(depth: real): (r: Option<LayerName>)
      ensures r.Some? ==> LayerNamed(r.value).Contains(depth)
      ensures r.None? <==> !core.Contains(depth) && !radiativeZone.Contains(depth) && !convectiveZone.Contains(depth)
    {
      if core.radiusMin <= depth < core.radiusMax then Some(Core)
      else if radiativeZone.radiusMin <= depth < radiativeZone.radiusMax then Some(RadiativeZone)
      else if convectiveZone.radiusMin <= depth < convectiveZone.radiusMax then Some(ConvectiveZone)
      else None
    }

    function LayerNamed(name: LayerName): Layer
    {
      match name
      case Core => core
      case RadiativeZone => radiativeZone
      case ConvectiveZone => convectiveZone
    }

    /** The depth lies outside every layer exactly when the lookups panic. */
    function TemperatureAtDepth(depth: real, sqrt: real -> real): (r: Value)
      requires GetLayer(depth).Some?
      ensures var layer := LayerNamed(GetLayer(depth).value);
        r == layer.CalculateProperty(depth, layer.radiusMin, sqrt)
    {
      match GetLayer(depth).value
      case Core => core.CalculateProperty(depth, core.radiusMin, sqrt)
      case RadiativeZone => radiativeZone.CalculateProperty(depth, radiativeZone.radiusMin, sqrt)
      case ConvectiveZone => convectiveZone.CalculateProperty(depth, convectiveZone.radiusMin, sqrt)
    }

    function DensityAtDepth(depth: real, sqrt: real -> real): (r: Value)
      requires GetLayer(depth).Some?
      ensures var layer := LayerNamed(GetLayer(depth).value);
        r == layer.CalculateProperty(depth, layer.radiusMin, sqrt)
    {
      match GetLayer(depth).value
      case Core => core.CalculateProperty(depth, core.radiusMin, sqrt)
      case RadiativeZone => radiativeZone.CalculateProperty(depth, radiativeZone.radiusMin, sqrt)
      case ConvectiveZone => convectiveZone.CalculateProperty(depth, convectiveZone.radiusMin, sqrt)
    }

    function EnergyGenerationRateAtDepth(depth: real, sqrt: real -> real): (r: Value)
      requires GetLayer(depth).Some?
      ensures var layer := LayerNamed(GetLayer(depth).value);
        r == layer.CalculateProperty(depth, layer.radiusMin, sqrt)
    {
      match GetLayer(depth).value
      case Core => core.CalculateProperty(depth, core.radiusMin, sqrt)
      case RadiativeZone => radiativeZone.CalculateProperty(depth, radiativeZone.radiusMin, sqrt)
      case ConvectiveZone => convectiveZone.CalculateProperty(depth, convectiveZone.radiusMin, sqrt)
    }
  }

  /** Classification is first-match over the three intervals: each answer
      holds exactly when its interval contains the depth and no earlier one
      does, and there is no answer exactly when no interval contains it. */
  lemma GetLayerIsFirstMatch(sun: Sun, depth: real)
    ensures sun.GetLayer(depth) == Some(Core) <==> sun.core.Contains(depth)
    ensures sun.GetLayer(depth) == Some(RadiativeZone) <==>
      !sun.core.Contains(depth) && sun.radiativeZone.Contains(depth)
    ensures sun.GetLayer(depth) == Some(ConvectiveZone) <==>
      !sun.core.Contains(depth) && !sun.radiativeZone.Contains(depth) && sun.convectiveZone.Contains(depth)
    ensures sun.GetLayer(depth) == None <==>
      !sun.core.Contains(depth) && !sun.radiativeZone.Contains(depth) && !sun.convectiveZone.Contains(depth)
  {
  }

  /** Intervals are half-open: a layer's upper radius is never classified as
      that layer. */
  lemma UpperRadiusExcluded(sun: Sun, name: LayerName)
    ensures sun.GetLayer(sun.LayerNamed(name).radiusMax) != Some(name)
  {
  }

  /** The three lookups agree at every depth they accept. */
  lemma LookupsAgree(sun: Sun, depth: real, sqrt: real -> real)
    requires sun.GetLayer(depth).Some?
    ensures sun.TemperatureAtDepth(depth, sqrt) == sun.DensityAtDepth(depth, sqrt)
    ensures sun.DensityAtDepth(depth, sqrt) == sun.EnergyGenerationRateAtDepth(depth, sqrt)
  {
  }

  const SolarRadius: real := 695900000.0
  const CoreRadius: real := 0.2 * SolarRadius

  /** The Sun as the program configures it: every layer a temperature
      gradient; the radiative zone [0.2 R, 0.9 R) overlaps the convective
      zone [0.5 R, R). */
  function ConfiguredSun(): (r: Sun)
    ensures r.core.radiusMin == 0.0 && r.core.radiusMax == r.radiativeZone.radiusMin == CoreRadius
    ensures r.convectiveZone.radiusMin < r.radiativeZone.radiusMax && r.convectiveZone.radiusMax == SolarRadius
    ensures r.core.properties.TemperatureGradient? && r.radiativeZone.properties.TemperatureGradient?
    ensures r.convectiveZone.properties.TemperatureGradient?
  {
    Sun(
      Layer(0.0, CoreRadius, TemperatureGradient(15000000.0)),
      Layer(CoreRadius, CoreRadius + 0.7 * SolarRadius, TemperatureGradient(10000000.0)),
      Layer(CoreRadius + 0.3 * SolarRadius, SolarRadius, TemperatureGradient(10000000.0)))
  }

  /** In the configured Sun a depth in the overlap of the radiative and the
      convective zone is classified as radiative zone; only depths in
      [0.9 R, R) are classified as convective zone. */
  lemma ConfiguredSunOverlap(depth: real)
    ensures ConfiguredSun().radiativeZone.Contains(depth) && ConfiguredSun().convectiveZone.Contains(depth) ==>
      ConfiguredSun().GetLayer(depth) == Some(RadiativeZone)
    ensures ConfiguredSun().GetLayer(depth) == Some(ConvectiveZone) <==>
      CoreRadius + 0.7 * SolarRadius <= depth < SolarRadius
    ensures ConfiguredSun().GetLayer(depth).Some? <==> 0.0 <= depth < SolarRadius
  {
  }

  /** Each lookup passes the matched layer's lower radius as the radius of
      the profile. In the configured Sun that makes the temperature finite at
      a single depth, the core radius: the core's lower radius is 0, and
      every other depth lies beyond its layer's lower radius. */
  lemma ConfiguredSunTemperatureFiniteOnlyAtCoreRadius(depth: real, sqrt: real -> real)
    requires ConfiguredSun().GetLayer(depth).Some?
    ensures ConfiguredSun().TemperatureAtDepth(depth, sqrt).Finite? <==> depth == CoreRadius
  {
    var sun := ConfiguredSun();
    var name := sun.GetLayer(depth).value;
    var layer := sun.LayerNamed(name);
    if name != Core {
      assert layer.radiusMin > 0.0;
      assert depth / layer.radiusMin <= 1.0 <==> depth <= layer.radiusMin;
    }
  }
}
