/**
 * A Transverse Mercator projection over an ellipsoid with semi-axes a and
 * b, following the formulas of the Ordnance Survey's Geodetic Information
 * Paper No 1, "The Ellipsoid and the Transverse Mercator Projection".
 *
 * The trigonometric functions and the square root are supplied as a
 * MathLibrary value and are otherwise uninterpreted; the only law assumed
 * of them, where a lemma needs it, is sin 0 = 0. What is modelled is the
 * structure of the computation: the constants derived at construction, the
 * error-tolerance knob, the iteration that refines the latitude, the power
 * tables and the exact behaviour at the false origin and on the central
 * meridian. Where the Java code divides by zero (giving an infinite or NaN
 * result) the model reports Undefined.
 */
module TransverseMercator {

  import opened Wrappers
  import opened JavaArith

  /** The uninterpreted numerical functions the formulas call. */
  datatype MathLibrary = MathLibrary(sin: real -> real, cos: real -> real, tan: real -> real, sqrt: real -> real)

  /** The one law of the sine the exact facts below rely on. */
  predicate Lawful(m: MathLibrary) {
    m.sin(0.0) == 0.0
  }

  datatype TMError =
    | Undefined      // a divisor of the formulas is zero: Java yields Infinity or NaN
    | NotConverged   // the latitude iteration used up its fuel

  /** A pair of coordinates: (longitude, latitude) or (easting, northing), as the DPoint results hold them. */
  datatype Coordinates = Coordinates(x: real, y: real)

  /**
   * The last pass of the latitude iteration: its input latitude, the
   * refined latitude it produced, its residual N - N0 - M and the number
   * of passes run.
   */
  datatype Refined = Refined(previous: real, latitude: real, residual: real, passes: nat)

  /** The radii of curvature nu and rho at a latitude, and eta^2 = nu / rho - 1. */
  datatype Auxiliaries = Auxiliaries(nu: real, rho: real, etasq: real)

  /** x to the power k, by repeated multiplication as the power table is filled. */
  function Pow(x: real, k: nat): real {
    if k == 0 then 1.0 else Pow(x, k - 1) * x
  }

  lemma PowAddTwo(x: real, k: nat)
    ensures Pow(x, k + 2) == Pow(x, k) * (x * x)
  {
    assert Pow(x, k + 2) == (Pow(x, k) * x) * x;
  }

  /** Some divisor of the latitude/longitude series is zero. */
  predicate SeriesDivisorVanishes(c: real, nu: real, rho: real, nu3: real, nu5: real, nu7: real) {
    || c == 0.0 || nu == 0.0
    || 2.0 * rho * nu == 0.0 || 24.0 * rho * nu3 == 0.0 || 720.0 * rho * nu5 == 0.0
    || 6.0 * nu3 == 0.0 || 120.0 * nu5 == 0.0 || 5040.0 * nu7 == 0.0
  }

  /** n (a + b) = a - b and e^2 a^2 = (a - b)(a + b) give e^2 (1 + n)^2 = 4 n. */
  lemma FlatteningIdentity(a: real, b: real, n: real, e2: real)
    requires a > 0.0 && a + b > 0.0
    requires n * (a + b) == a - b && e2 * (a * a) == (a - b) * (a + b)
    ensures e2 * ((1.0 + n) * (1.0 + n)) == 4.0 * n
  {
    Distribute(a + b, n);
    assert (1.0 + n) * (a + b) == 2.0 * a;
    calc {
      (e2 * ((1.0 + n) * (1.0 + n))) * ((a + b) * (a + b));
      == e2 * (((1.0 + n) * (a + b)) * ((1.0 + n) * (a + b)));
      == e2 * ((2.0 * a) * (2.0 * a));
      == 4.0 * (e2 * (a * a));
      == 4.0 * ((a - b) * (a + b));
      == 4.0 * ((n * (a + b)) * (a + b));
      == (4.0 * n) * ((a + b) * (a + b));
    }
    ProductPositive(a + b, a + b);
    CancelPositive(e2 * ((1.0 + n) * (1.0 + n)), 4.0 * n, (a + b) * (a + b));
  }

  lemma ProductPositive(x: real, y: real)
    requires x > 0.0 && y > 0.0
    ensures x * y > 0.0
  {
  }

  lemma Distribute(s: real, n: real)
    ensures (1.0 + n) * s == s + n * s
  {
  }

  /** 0 < p < q gives 0 < p / q < 1. */
  lemma QuotientBetweenZeroAndOne(p: real, q: real)
    requires 0.0 < p < q
    ensures 0.0 < p / q < 1.0 && (p / q) * q == p
  {
    assert (p / q) * q == p;
    FactorBetweenZeroAndOne(p / q, q, p);
  }

  lemma FactorBetweenZeroAndOne(r: real, q: real, p: real)
    requires q > 0.0 && r * q == p && 0.0 < p < q
    ensures 0.0 < r < 1.0
  {
    if r >= 1.0 {
      assert false;
    }
    if r <= 0.0 {
      assert false;
    }
  }

  lemma CancelPositive(x: real, y: real, k: real)
    requires k > 0.0 && x * k == y * k
    ensures x == y
  {
    assert (x - y) * k == 0.0;
  }

  class TransverseMercatorProjection {
    const a: real
    const b: real
    const F0: real
    const phi0: real
    const lambda0: real
    const E0: real
    const N0: real
    const n: real
    const eSquared: real
    const aF0: real
    const bF0: real
    const math: MathLibrary
    /** Scratch tables: tp[i] = tan(phi)^i and pnu[k] = nu^k for odd k. */
    const tp: array<real>
    const pnu: array<real>
    var epsilon: real

    /** The derived constants and the tables as the constructor leaves them; a non-negative tolerance. */
    ghost predicate Valid()
      reads this
    {
      && a != 0.0 && a + b != 0.0
      && n == (a - b) / (a + b)
      && eSquared == (a - b) * (a + b) / (a * a)
      && aF0 == a * F0 && bF0 == b * F0
      && tp.Length == 7 && pnu.Length == 8 && tp != pnu
      && epsilon >= 0.0
    }

    /**
     * The Java constructor's arguments, in its order, and the numerical
     * library. The divisions that derive n and e^2 need a != 0 and a + b != 0.
     */
    constructor (majorAxis: real, minorAxis: real, scaleFactor: real, centralLongitude: real,
                 centralLatitude: real, eastingOffset: real, northingOffset: real, m: MathLibrary)
      requires majorAxis != 0.0 && majorAxis + minorAxis != 0.0
      ensures Valid() && fresh(tp) && fresh(pnu)
      ensures a == majorAxis && b == minorAxis && F0 == scaleFactor
      ensures lambda0 == centralLongitude && phi0 == centralLatitude
      ensures E0 == eastingOffset && N0 == northingOffset && math == m
      ensures epsilon == 0.001
    {
      a := majorAxis;
      b := minorAxis;
      F0 := scaleFactor;
      phi0 := centralLatitude;
      lambda0 := centralLongitude;
      E0 := eastingOffset;
      N0 := northingOffset;
      math := m;
      n := (majorAxis - minorAxis) / (majorAxis + minorAxis);
      eSquared := (majorAxis - minorAxis) * (majorAxis + minorAxis) / (majorAxis * majorAxis);
      aF0 := majorAxis * scaleFactor;
      bF0 := minorAxis * scaleFactor;
      tp := new real[7](_ => 0.0);
      pnu := new real[8](_ => 0.0);
      epsilon := 0.001;
    }

    /**
     * Construction for any axes: where Java would derive non-finite
     * constants from a zero divisor, the model reports Undefined.
     */
    static method Create(majorAxis: real, minorAxis: real, scaleFactor: real, centralLongitude: real,
                         centralLatitude: real, eastingOffset: real, northingOffset: real, m: MathLibrary)
      returns (r: Result<TransverseMercatorProjection, TMError>)
      ensures r.Failure? <==> majorAxis == 0.0 || majorAxis + minorAxis == 0.0
      ensures r.Failure? ==> r.error == Undefined
      ensures r.Success? ==> fresh(r.value) && r.value.Valid() && r.value.a == majorAxis && r.value.b == minorAxis
      ensures r.Success? ==> && r.value.F0 == scaleFactor && r.value.lambda0 == centralLongitude
                             && r.value.phi0 == centralLatitude && r.value.E0 == eastingOffset
                             && r.value.N0 == northingOffset && r.value.math == m && r.value.epsilon == 0.001
    {
      if majorAxis == 0.0 || majorAxis + minorAxis == 0.0 {
        return Failure(Undefined);
      }
      var p := new TransverseMercatorProjection(majorAxis, minorAxis, scaleFactor, centralLongitude,
                                                centralLatitude, eastingOffset, northingOffset, m);
      return Success(p);
    }

    /**
     * The derived constants of a true ellipsoid (0 < b < a): the third
     * flattening n lies strictly between 0 and 1 and is tied to the squared
     * eccentricity by e^2 (1 + n)^2 = 4 n.
     */
    lemma DerivedConstants()
      requires Valid() && 0.0 < b < a
      ensures 0.0 < n < 1.0
      ensures eSquared * ((1.0 + n) * (1.0 + n)) == 4.0 * n
    {
      QuotientBetweenZeroAndOne(a - b, a + b);
      assert n * (a + b) == a - b;
      assert eSquared * (a * a) == (a - b) * (a + b);
      FlatteningIdentity(a, b, n, eSquared);
    }

    /** The meridional arc from the latitude of the origin to phi, scaled by b F0. */
    function CalculateM(phi: real): real {
      var M := (1.0 + n + 1.25 * n * n * (1.0 + n)) * (phi - phi0)
               - 3.0 * n * (1.0 + n + 1.125 * n * n) * math.sin(phi - phi0) * math.cos(phi + phi0)
               + 15.0 * n * n * (1.0 + n) / 8.0 * math.sin(2.0 * (phi - phi0)) * math.cos(2.0 * (phi + phi0))
               - 35.0 * n * n * n / 24.0 * math.sin(3.0 * (phi - phi0)) * math.cos(3.0 * (phi + phi0));
      M * bF0
    }

    /** The meridional arc vanishes at the latitude of the true origin. */
    lemma CalculateMAtOrigin()
      requires Lawful(math)
      ensures CalculateM(phi0) == 0.0
    {
      assert phi0 - phi0 == 0.0 && 2.0 * (phi0 - phi0) == 0.0 && 3.0 * (phi0 - phi0) == 0.0;
    }

    method SetErrorTolerance(d: real)
      requires Valid()
      modifies this
      ensures Valid() && epsilon == Abs(d)
    {
      epsilon := Abs(d);
    }

    /** The tolerance is never negative. */
    function GetErrorTolerance(): (e: real)
      reads this
      requires Valid()
      ensures e >= 0.0
    {
      epsilon
    }

    /**
     * The do-while refinement of the latitude from phi, with at most fuel
     * passes left, passes having run: each pass computes the residual
     * x = N - N0 - M(phi) and moves phi by x / (a F0); the loop stops after
     * the first pass whose residual is within the tolerance.
     */
    function Refine(northing: real, phi: real, passes: nat, fuel: nat): Result<Refined, TMError>
      reads this
      requires aF0 != 0.0
      decreases fuel
    {
      if fuel == 0 then Failure(NotConverged)
      else
        var x := northing - N0 - CalculateM(phi);
        var next := phi + x / aF0;
        if Abs(x) > epsilon then Refine(northing, next, passes + 1, fuel - 1)
        else Success(Refined(phi, next, x, passes + 1))
    }

    /**
     * The refinement fails only by running out of fuel; when it succeeds its
     * last pass met the tolerance, moved the latitude by the residual over
     * a F0, and at least one and at most fuel passes ran.
     */
    lemma {:induction false} RefineResult(northing: real, phi: real, passes: nat, fuel: nat)
      requires aF0 != 0.0
      decreases fuel
      ensures var r := Refine(northing, phi, passes, fuel);
              && (r.Failure? ==> r.error == NotConverged)
              && (r.Success? ==>
                    && Abs(r.value.residual) <= epsilon
                    && r.value.residual == northing - N0 - CalculateM(r.value.previous)
                    && r.value.latitude == r.value.previous + r.value.residual / aF0
                    && passes < r.value.passes <= passes + fuel)
    {
      if fuel > 0 {
        var x := northing - N0 - CalculateM(phi);
        if Abs(x) > epsilon {
          RefineResult(northing, phi + x / aF0, passes + 1, fuel - 1);
        }
      }
    }

    /** One pass of the refinement: its residual decides between stopping and the next pass. */
    lemma RefineStep(northing: real, phi: real, passes: nat, fuel: nat, x: real)
      requires aF0 != 0.0 && fuel > 0
      requires x == northing - N0 - CalculateM(phi)
      ensures Refine(northing, phi, passes, fuel) ==
                if Abs(x) > epsilon then Refine(northing, phi + x / aF0, passes + 1, fuel - 1)
                else Success(Refined(phi, phi + x / aF0, x, passes + 1))
    {
    }

    /** The fuel only bounds the iteration: a refinement that succeeds is unchanged by more fuel. */
    lemma {:induction false} RefineMoreFuel(northing: real, phi: real, passes: nat, fuel: nat, extra: nat)
      requires aF0 != 0.0
      requires Refine(northing, phi, passes, fuel).Success?
      ensures Refine(northing, phi, passes, fuel + extra) == Refine(northing, phi, passes, fuel)
      decreases fuel
    {
      var x := northing - N0 - CalculateM(phi);
      if Abs(x) > epsilon {
        RefineMoreFuel(northing, phi + x / aF0, passes + 1, fuel - 1, extra);
      }
    }

    /**
     * nu, rho and eta^2 at latitude phi, as both transforms compute them:
     * y = e^2 sin^2 phi, nu = a F0 / sqrt(1 - y), rho = nu (1 - e^2) / (1 - y)
     * and eta^2 = nu / rho - 1. A zero divisor is reported as Undefined.
     */
    function AuxiliariesAt(phi: real): (r: Result<Auxiliaries, TMError>)
      ensures r.Failure? ==> r.error == Undefined
      ensures r.Success? ==> r.value.rho != 0.0
    {
      var s := math.sin(phi);
      var y := s * (s * eSquared);
      var x := 1.0 - y;
      var root := math.sqrt(x);
      if root == 0.0 || x == 0.0 then Failure(Undefined)
      else
        var nu := aF0 / root;
        var rho := nu * (1.0 - eSquared) / x;
        if rho == 0.0 then Failure(Undefined)
        else Success(Auxiliaries(nu, rho, nu / rho - 1.0))
    }

    /**
     * The latitude/longitude series in E - E0 at the refined latitude phi,
     * given the auxiliaries, tan phi and cos phi, the powers t1, t2, t4 and t6
     * of tan phi and the odd powers nu3 .. nu7 of nu, as the power tables hold them.
     */
    function SeriesTerms(easting: real, phi: real, aux: Auxiliaries, c: real,
                         t1: real, t2: real, t4: real, t6: real,
                         nu3: real, nu5: real, nu7: real): (r: Result<Coordinates, TMError>)
      ensures r.Failure? ==> r.error == Undefined
    {
      var nu := aux.nu;
      var rho := aux.rho;
      var etasq := aux.etasq;
      if SeriesDivisorVanishes(c, nu, rho, nu3, nu5, nu7) then Failure(Undefined)
      else
        var dE := easting - E0;
        var sp := 1.0 / c;
        var VII := t1 / (2.0 * rho * nu);
        var VIII := t1 * (5.0 + 3.0 * t2 + etasq * (1.0 - 9.0 * t2)) / (24.0 * rho * nu3);
        var IX := t1 * (61.0 + 90.0 * t2 + 45.0 * t4) / (720.0 * rho * nu5);
        var X := sp / nu;
        var XI := sp * (nu / rho + 2.0 * t2) / (6.0 * nu3);
        var XII := sp * (5.0 + 28.0 * t2 + 24.0 * t4) / (120.0 * nu5);
        var XIIA := sp * (61.0 + 662.0 * t2 + 1320.0 * t4 + 720.0 * t6) / (5040.0 * nu7);
        var x2 := dE * dE;
        Success(Coordinates(lambda0 + dE * (X + x2 * (-XI + x2 * (XII - x2 * XIIA))),
                            phi + x2 * (-VII + x2 * (VIII - x2 * IX))))
    }

    /**
     * The series that turns the refined latitude phi and the easting into
     * longitude and latitude, with the power tables written as powers.
     */
    function Series(easting: real, phi: real): (r: Result<Coordinates, TMError>)
      ensures r.Failure? ==> r.error == Undefined
    {
      match AuxiliariesAt(phi)
      case Failure(e) => Failure(e)
      case Success(aux) =>
        var t := math.tan(phi);
        SeriesTerms(easting, phi, aux, math.cos(phi), Pow(t, 1), Pow(t, 2), Pow(t, 4), Pow(t, 6),
                    Pow(aux.nu, 3), Pow(aux.nu, 5), Pow(aux.nu, 7))
    }

    /**
     * GridToLongitudeAndLatitude as a function: the start phi = (N - N0) / (a F0) + phi0,
     * the refinement with at most fuel passes, then the series.
     */
    function Forward(easting: real, northing: real, fuel: nat): Result<Coordinates, TMError>
      reads this
    {
      if aF0 == 0.0 then Failure(Undefined)
      else
        match Refine(northing, (northing - N0) / aF0 + phi0, 0, fuel)
        case Failure(e) => Failure(e)
        case Success(r) => Series(easting, r.latitude)
    }

    /** On the central meridian (E = E0) the series returns longitude lambda0 and leaves the latitude as it is. */
    lemma SeriesOnCentralMeridian(phi: real)
      ensures Series(E0, phi).Success? ==> Series(E0, phi).value == Coordinates(lambda0, phi)
    {
      var dE := E0 - E0;
      assert dE == 0.0 && dE * dE == 0.0;
    }

    /** The forward transform of any point with easting E0 has longitude exactly lambda0. */
    lemma ForwardOnCentralMeridian(northing: real, fuel: nat)
      ensures Forward(E0, northing, fuel).Success? ==> Forward(E0, northing, fuel).value.x == lambda0
    {
      if aF0 != 0.0 {
        var r := Refine(northing, (northing - N0) / aF0 + phi0, 0, fuel);
        if r.Success? {
          SeriesOnCentralMeridian(r.value.latitude);
        }
      }
    }

    /**
     * At the false origin the refinement starts at phi0, meets the tolerance
     * on its first pass, and the forward transform gives (lambda0, phi0).
     */
    lemma ForwardAtFalseOrigin(fuel: nat)
      requires Valid() && Lawful(math) && aF0 != 0.0 && fuel >= 1
      ensures Refine(N0, (N0 - N0) / aF0 + phi0, 0, fuel) == Success(Refined(phi0, phi0, 0.0, 1))
      ensures Forward(E0, N0, fuel).Success? ==> Forward(E0, N0, fuel).value == Coordinates(lambda0, phi0)
    {
      assert (N0 - N0) / aF0 + phi0 == phi0;
      CalculateMAtOrigin();
      assert N0 - N0 - CalculateM(phi0) == 0.0;
      assert phi0 + 0.0 / aF0 == phi0;
      SeriesOnCentralMeridian(phi0);
    }

    /** The first fill loop: tp[i] = t^i for i < 7. */
    method FillTangentPowers(t: real)
      requires Valid()
      modifies tp
      ensures forall i :: 0 <= i < 7 ==> tp[i] == Pow(t, i)
    {
      tp[0] := 1.0;
      var i := 1;
      while i < 7
        invariant 1 <= i <= 7
        invariant forall j :: 0 <= j < i ==> tp[j] == Pow(t, j)
      {
        tp[i] := tp[i - 1] * t;
        i := i + 1;
      }
    }

    /** The second fill loop: pnu[k] = nu^k for odd k < 8, the even entries untouched. */
    method FillNuPowers(nu: real)
      requires Valid()
      modifies pnu
      ensures pnu[1] == Pow(nu, 1) && pnu[3] == Pow(nu, 3) && pnu[5] == Pow(nu, 5) && pnu[7] == Pow(nu, 7)
      ensures pnu[0] == old(pnu[0]) && pnu[2] == old(pnu[2]) && pnu[4] == old(pnu[4]) && pnu[6] == old(pnu[6])
    {
      pnu[1] := nu;
      var x := nu * nu;
      var i := 3;
      while i < 8
        invariant i == 3 || i == 5 || i == 7 || i == 9
        invariant pnu[1] == Pow(nu, 1)
        invariant i > 3 ==> pnu[3] == Pow(nu, 3)
        invariant i > 5 ==> pnu[5] == Pow(nu, 5)
        invariant i > 7 ==> pnu[7] == Pow(nu, 7)
        invariant pnu[0] == old(pnu[0]) && pnu[2] == old(pnu[2]) && pnu[4] == old(pnu[4]) && pnu[6] == old(pnu[6])
      {
        PowAddTwo(nu, i - 2);
        pnu[i] := pnu[i - 2] * x;
        i := i + 2;
      }
    }

    /**
     * The forward transform, grid (E, N) to (longitude, latitude). The Java
     * do-while loop has no bound; here it runs at most fuel passes and
     * reports NotConverged when they are used up.
     */
    method GridToLongitudeAndLatitude(easting: real, northing: real, fuel: nat) returns (r: Result<Coordinates, TMError>)
      requires Valid()
      modifies tp, pnu
      ensures Valid()
      ensures r == Forward(easting, northing, fuel)
    {
      if aF0 == 0.0 {
        return Failure(Undefined);
      }
      var refined := RefineLatitude(northing, fuel);
      if refined.Failure? {
        return Failure(refined.error);
      }
      r := ApplySeries(easting, refined.value.latitude);
    }

    /**
     * The first half of the forward transform: the do-while loop that
     * refines the latitude from the start (N - N0) / (a F0) + phi0 until the
     * residual N - N0 - M is within the tolerance, here for at most fuel passes.
     */
    method RefineLatitude(northing: real, fuel: nat) returns (r: Result<Refined, TMError>)
      requires aF0 != 0.0
      ensures r == Refine(northing, (northing - N0) / aF0 + phi0, 0, fuel)
    {
      var N := northing;
      var phi := (N - N0) / aF0 + phi0;
      ghost var start := phi;
      var previous := phi;
      var x: real := 0.0;
      var passes: nat := 0;
      while true
        invariant passes <= fuel
        invariant Refine(N, phi, passes, fuel - passes) == Refine(N, start, 0, fuel)
        decreases fuel - passes
      {
        if passes == fuel {
          return Failure(NotConverged);
        }
        var M := CalculateM(phi);
        x := N - N0 - M;
        RefineStep(N, phi, passes, fuel - passes, x);
        previous := phi;
        phi := phi + x / aF0;
        passes := passes + 1;
        if Abs(x) <= epsilon {
          assert Refine(N, start, 0, fuel) == Success(Refined(previous, phi, x, passes));
          return Success(Refined(previous, phi, x, passes));
        }
      }
    }

    /**
     * The second half of the forward transform: the auxiliary quantities
     * nu, rho and eta^2 at the refined latitude, the power tables, and the
     * series in E - E0 read from the tables.
     */
    method ApplySeries(E: real, phi: real) returns (r: Result<Coordinates, TMError>)
      requires Valid()
      modifies tp, pnu
      ensures Valid()
      ensures r == Series(E, phi)
    {
      var aux := AuxiliariesAt(phi);
      if aux.Failure? {
        return Failure(aux.error);
      }
      FillTangentPowers(math.tan(phi));
      FillNuPowers(aux.value.nu);
      r := SeriesTerms(E, phi, aux.value, math.cos(phi), tp[1], tp[2], tp[4], tp[6], pnu[3], pnu[5], pnu[7]);
    }

    /** The inverse transform, (longitude, latitude) to grid (E, N). */
    function LatitudeAndLongitudeToGrid(longitude: real, latitude: real): (r: Result<Coordinates, TMError>)
      ensures r.Failure? ==> r.error == Undefined
    {
      var lambda := longitude;
      var phi := latitude;
      var sp := math.sin(phi);
      var cp := math.cos(phi);
      var cp3 := cp * cp * cp;
      var cp5 := cp3 * cp * cp;
      var t := math.tan(phi);
      var tpsq := t * t;
      var P := lambda - lambda0;
      var P3 := P * P * P;
      var P5 := P3 * P * P;
      match AuxiliariesAt(phi)
      case Failure(e) => Failure(e)
      case Success(aux) =>
        var nu := aux.nu;
        var rho := aux.rho;
        var etasq := aux.etasq;
        var M := CalculateM(phi);
        var I := M + N0;
        var II := 0.5 * nu * sp * cp;
        var III := (nu / 24.0) * sp * cp3 * (5.0 - tpsq + 9.0 * etasq);
        var IIIA := (nu / 720.0) * sp * cp5 * (61.0 - 58.0 * tpsq + tpsq * tpsq);
        var IV := nu * cp;
        var V := (nu / 6.0) * cp3 * (nu / rho - tpsq);
        var VI := (nu / 120.0) * cp5 * (5.0 - 18.0 * tpsq + tpsq * tpsq + 14.0 * etasq - 58.0 * etasq * tpsq);
        Success(Coordinates(E0 + P * IV + P3 * V + P5 * VI, I + P * (P * II + P3 * III + P5 * IIIA)))
    }

    /** On the central meridian the inverse transform gives easting exactly E0 and northing M(phi) + N0. */
    lemma InverseOnCentralMeridian(latitude: real)
      ensures var r := LatitudeAndLongitudeToGrid(lambda0, latitude);
              r.Success? ==> r.value == Coordinates(E0, CalculateM(latitude) + N0)
    {
      var P := lambda0 - lambda0;
      assert P == 0.0 && P * P * P == 0.0;
    }

    /** The true origin (lambda0, phi0) maps to the false origin (E0, N0). */
    lemma InverseAtOrigin()
      requires Lawful(math)
      ensures var r := LatitudeAndLongitudeToGrid(lambda0, phi0);
              r.Success? ==> r.value == Coordinates(E0, N0)
    {
      InverseOnCentralMeridian(phi0);
      CalculateMAtOrigin();
    }
  }
}
