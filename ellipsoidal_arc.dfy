/**
 * An arc on an ellipsoid between point A and point B, with Vincenty's
 * inverse solution (distance and both azimuths from the two positions) and
 * direct solution (position and azimuth at B from A, the azimuth at A and
 * the distance). Each of the five optional quantities — position A,
 * position B, azimuth A, azimuth B, distance — is guarded by a presence
 * flag: getters refuse an absent quantity and the solvers refuse to start
 * without their inputs.
 *
 * The trigonometry of the two solutions is abstracted: the per-pass
 * correction and the final results are functions supplied by the caller,
 * of the problem's data and of the iterated value. What is modelled is the
 * flag logic, the longitude normalisation and the capped iteration.
 */
module Geodesics {

  import opened Wrappers
  import opened JavaArith
  import opened CappedIteration
  import Ellipsoids

  /** The TwoPi constant of the class. */
  const TwoPi: real := 2.0 * Pi

  /** The three exceptions the class throws, with their messages. */
  datatype ArcError =
    | IllegalArgument(message: string)
    | IllegalState(message: string)
    | Arithmetic(message: string)

  /**
   * The state of an arc: the seven stored quantities and the five presence
   * flags. A quantity whose flag is false holds whatever was last stored, or
   * 0.0 as Java initialises a field.
   */
  datatype ArcState = ArcState(
    longitudeA: real, latitudeA: real, longitudeB: real, latitudeB: real,
    azimuthA: real, azimuthB: real, geodesicDistance: real,
    havePositionA: bool, havePositionB: bool, haveAzimuthA: bool, haveAzimuthB: bool,
    haveDistance: bool)
  {
    function WithPositionA(longitude: real, latitude: real): ArcState {
      this.(longitudeA := longitude, latitudeA := latitude, havePositionA := true)
    }

    function WithPositionB(longitude: real, latitude: real): ArcState {
      this.(longitudeB := longitude, latitudeB := latitude, havePositionB := true)
    }

    function WithAzimuthA(azimuth: real): ArcState {
      this.(azimuthA := azimuth, haveAzimuthA := true)
    }

    function WithAzimuthB(azimuth: real): ArcState {
      this.(azimuthB := azimuth, haveAzimuthB := true)
    }

    function WithDistance(distance: real): ArcState {
      this.(geodesicDistance := distance, haveDistance := true)
    }

    function LatitudeA(): Result<real, ArcError> {
      if havePositionA then Success(latitudeA) else Failure(IllegalState("latitudeA is not defined"))
    }

    function LongitudeA(): Result<real, ArcError> {
      if havePositionA then Success(longitudeA) else Failure(IllegalState("longitudeA is not defined"))
    }

    function LatitudeB(): Result<real, ArcError> {
      if havePositionB then Success(latitudeB) else Failure(IllegalState("latitudeB is not defined"))
    }

    function LongitudeB(): Result<real, ArcError> {
      if havePositionB then Success(longitudeB) else Failure(IllegalState("longitudeB is not defined"))
    }

    function AzimuthA(): Result<real, ArcError> {
      if haveAzimuthA then Success(azimuthA) else Failure(IllegalState("azimuthA is not defined"))
    }

    function AzimuthB(): Result<real, ArcError> {
      if haveAzimuthB then Success(azimuthB) else Failure(IllegalState("azimuthB is not defined"))
    }

    function Distance(): Result<real, ArcError> {
      if haveDistance then Success(geodesicDistance) else Failure(IllegalState("distance is not defined"))
    }

  }

  /** A freshly constructed arc: nothing defined, every field 0.0. */
  const Initial: ArcState := ArcState(0.0, 0.0, 0.0, 0.0, 0.0, 0.0, 0.0, false, false, false, false, false)

  /** Every getter of a fresh arc fails with its IllegalStateException. */
  lemma InitialGettersFail()
    ensures Initial.LatitudeA() == Failure(IllegalState("latitudeA is not defined"))
    ensures Initial.LongitudeA() == Failure(IllegalState("longitudeA is not defined"))
    ensures Initial.LatitudeB() == Failure(IllegalState("latitudeB is not defined"))
    ensures Initial.LongitudeB() == Failure(IllegalState("longitudeB is not defined"))
    ensures Initial.AzimuthA() == Failure(IllegalState("azimuthA is not defined"))
    ensures Initial.AzimuthB() == Failure(IllegalState("azimuthB is not defined"))
    ensures Initial.Distance() == Failure(IllegalState("distance is not defined"))
  {
  }

  /**
   * Each getter returns the stored value exactly when its flag is set, and
   * the IllegalStateException naming the quantity otherwise.
   */
  lemma GettersFollowFlags(s: ArcState)
    ensures s.LatitudeA().Success? <==> s.havePositionA
    ensures s.LongitudeA().Success? <==> s.havePositionA
    ensures s.LatitudeB().Success? <==> s.havePositionB
    ensures s.LongitudeB().Success? <==> s.havePositionB
    ensures s.AzimuthA().Success? <==> s.haveAzimuthA
    ensures s.AzimuthB().Success? <==> s.haveAzimuthB
    ensures s.Distance().Success? <==> s.haveDistance
    ensures s.LatitudeA().Success? ==> s.LatitudeA().value == s.latitudeA
    ensures s.LongitudeA().Success? ==> s.LongitudeA().value == s.longitudeA
    ensures s.LatitudeB().Success? ==> s.LatitudeB().value == s.latitudeB
    ensures s.LongitudeB().Success? ==> s.LongitudeB().value == s.longitudeB
    ensures s.AzimuthA().Success? ==> s.AzimuthA().value == s.azimuthA
    ensures s.AzimuthB().Success? ==> s.AzimuthB().value == s.azimuthB
    ensures s.Distance().Success? ==> s.Distance().value == s.geodesicDistance
  {
  }

  /**
   * A setter makes its own getters return the stored values and leaves every
   * other getter's answer as it was.
   */
  lemma SetPositionAThenGet(s: ArcState, longitude: real, latitude: real)
    ensures var t := s.WithPositionA(longitude, latitude);
            && t.LongitudeA() == Success(longitude) && t.LatitudeA() == Success(latitude)
            && t.LongitudeB() == s.LongitudeB() && t.LatitudeB() == s.LatitudeB()
            && t.AzimuthA() == s.AzimuthA() && t.AzimuthB() == s.AzimuthB() && t.Distance() == s.Distance()
  {
  }

  lemma SetPositionBThenGet(s: ArcState, longitude: real, latitude: real)
    ensures var t := s.WithPositionB(longitude, latitude);
            && t.LongitudeB() == Success(longitude) && t.LatitudeB() == Success(latitude)
            && t.LongitudeA() == s.LongitudeA() && t.LatitudeA() == s.LatitudeA()
            && t.AzimuthA() == s.AzimuthA() && t.AzimuthB() == s.AzimuthB() && t.Distance() == s.Distance()
  {
  }

  lemma SetAzimuthAThenGet(s: ArcState, azimuth: real)
    ensures var t := s.WithAzimuthA(azimuth);
            && t.AzimuthA() == Success(azimuth)
            && t.LongitudeA() == s.LongitudeA() && t.LatitudeA() == s.LatitudeA()
            && t.LongitudeB() == s.LongitudeB() && t.LatitudeB() == s.LatitudeB()
            && t.AzimuthB() == s.AzimuthB() && t.Distance() == s.Distance()
  {
  }

  lemma SetAzimuthBThenGet(s: ArcState, azimuth: real)
    ensures var t := s.WithAzimuthB(azimuth);
            && t.AzimuthB() == Success(azimuth)
            && t.LongitudeA() == s.LongitudeA() && t.LatitudeA() == s.LatitudeA()
            && t.LongitudeB() == s.LongitudeB() && t.LatitudeB() == s.LatitudeB()
            && t.AzimuthA() == s.AzimuthA() && t.Distance() == s.Distance()
  {
  }

  lemma SetDistanceThenGet(s: ArcState, distance: real)
    ensures var t := s.WithDistance(distance);
            && t.Distance() == Success(distance)
            && t.LongitudeA() == s.LongitudeA() && t.LatitudeA() == s.LatitudeA()
            && t.LongitudeB() == s.LongitudeB() && t.LatitudeB() == s.LatitudeB()
            && t.AzimuthA() == s.AzimuthA() && t.AzimuthB() == s.AzimuthB()
  {
  }

  /**
   * The longitude difference B - A brought into [-pi, pi] by one addition or
   * subtraction of 2 pi, as calculateDistance does before iterating.
   */
  function NormaliseLongitudeDifference(longitudeA: real, longitudeB: real): (w: real)
    ensures var raw := longitudeB - longitudeA;
            w == raw || w == raw + TwoPi || w == raw - TwoPi
    ensures var raw := longitudeB - longitudeA;
            -3.0 * Pi <= raw <= 3.0 * Pi ==> -Pi <= w <= Pi
    ensures var raw := longitudeB - longitudeA;
            -Pi <= raw <= Pi ==> w == raw
  {
    var raw := longitudeB - longitudeA;
    var w1 := if raw < -Pi then raw + TwoPi else raw;
    if w1 > Pi then w1 - TwoPi else w1
  }

  /** A difference of two longitudes in [-pi, pi] is always brought into [-pi, pi]. */
  lemma NormalisedForLongitudes(longitudeA: real, longitudeB: real)
    requires -Pi <= longitudeA <= Pi && -Pi <= longitudeB <= Pi
    ensures -Pi <= NormaliseLongitudeDifference(longitudeA, longitudeB) <= Pi
  {
  }

  // ---- The inverse problem (calculateDistance) ----

  /** The data the inverse solution works from: the ellipsoid, both latitudes and the normalised longitude difference. */
  datatype InverseProblem = InverseProblem(semiMajorAxis: real, flattening: real, latitudeA: real, latitudeB: real, w: real)

  /**
   * The trigonometry of the inverse solution: the correction dlam that a pass
   * computes from the trial longitude lambda; the two azimuths, computed from
   * the final lambda; and the distance, computed from the quantities of the
   * last pass and hence from that pass's trial lambda.
   */
  datatype InverseNumerics = InverseNumerics(
    correction: InverseProblem -> real -> real,
    azimuthA: (InverseProblem, real) -> real,
    azimuthB: (InverseProblem, real) -> real,
    distance: (InverseProblem, real) -> real)

  function InverseProblemOf(s: ArcState, a: real, f: real): InverseProblem {
    InverseProblem(a, f, s.latitudeA, s.latitudeB, NormaliseLongitudeDifference(s.longitudeA, s.longitudeB))
  }

  /** What calculateDistance returns together with the arc's new state. */
  datatype Solved = Solved(state: ArcState, distance: real)

  /**
   * calculateDistance on an arc in state s over an ellipsoid (a, f): both
   * positions are required, in that order; the longitude difference is
   * normalised and the correction iterated from lambda = w; on convergence
   * both azimuths and the distance are stored and flagged.
   */
  function CalculateDistanceSpec(s: ArcState, a: real, f: real, num: InverseNumerics): Result<Solved, ArcError> {
    if !s.havePositionA then Failure(IllegalState("positionA is not defined"))
    else if !s.havePositionB then Failure(IllegalState("positionB is not defined"))
    else
      var problem := InverseProblemOf(s, a, f);
      match Solve(num.correction(problem), problem.w)
      case Exhausted(_) => Failure(Arithmetic("Exceeded iteration limit"))
      case Converged(trial, correction, _, _) =>
        var lambda := problem.w + correction;
        var d := num.distance(problem, trial);
        Success(Solved(s.(azimuthA := num.azimuthA(problem, lambda), haveAzimuthA := true,
                          azimuthB := num.azimuthB(problem, lambda), haveAzimuthB := true,
                          geodesicDistance := d, haveDistance := true), d))
  }

  /** calculateDistance refuses to start without position A, then without position B. */
  lemma CalculateDistanceNeedsPositions(s: ArcState, a: real, f: real, num: InverseNumerics)
    ensures !s.havePositionA ==> CalculateDistanceSpec(s, a, f, num) == Failure(IllegalState("positionA is not defined"))
    ensures s.havePositionA && !s.havePositionB ==>
              CalculateDistanceSpec(s, a, f, num) == Failure(IllegalState("positionB is not defined"))
  {
  }

  /**
   * calculateDistance succeeds exactly when both positions are defined and the
   * convergence test is met within the first ten passes; when both positions
   * are defined and it is not, it fails with the iteration-limit exception.
   */
  lemma CalculateDistanceSucceedsIff(s: ArcState, a: real, f: real, num: InverseNumerics)
    ensures var problem := InverseProblemOf(s, a, f);
            CalculateDistanceSpec(s, a, f, num).Success? <==>
              s.havePositionA && s.havePositionB && PassesWithin(num.correction(problem), problem.w, 0, MaxIterations)
    ensures var problem := InverseProblemOf(s, a, f);
            s.havePositionA && s.havePositionB && !PassesWithin(num.correction(problem), problem.w, 0, MaxIterations) ==>
              CalculateDistanceSpec(s, a, f, num) == Failure(Arithmetic("Exceeded iteration limit"))
  {
    var problem := InverseProblemOf(s, a, f);
    SolveConvergesIff(num.correction(problem), problem.w);
  }

  /**
   * On success calculateDistance defines both azimuths and the distance,
   * returns exactly the distance its getter now gives, and leaves both
   * positions and their flags as they were.
   */
  lemma CalculateDistanceEffects(s: ArcState, a: real, f: real, num: InverseNumerics)
    requires CalculateDistanceSpec(s, a, f, num).Success?
    ensures var t := CalculateDistanceSpec(s, a, f, num).value;
            && t.state.haveAzimuthA && t.state.haveAzimuthB && t.state.haveDistance
            && t.state.Distance() == Success(t.distance)
            && t.state.LongitudeA() == s.LongitudeA() && t.state.LatitudeA() == s.LatitudeA()
            && t.state.LongitudeB() == s.LongitudeB() && t.state.LatitudeB() == s.LatitudeB()
            && t.state.LongitudeA().Success? && t.state.LongitudeB().Success?
  {
  }

  /**
   * The distance is computed from the trial longitude of the pass that met
   * the test, while the azimuths use the corrected longitude, w plus that
   * pass's correction.
   */
  lemma CalculateDistanceResults(s: ArcState, a: real, f: real, num: InverseNumerics)
    requires CalculateDistanceSpec(s, a, f, num).Success?
    ensures var problem := InverseProblemOf(s, a, f);
            var step := num.correction(problem);
            var r := Solve(step, problem.w);
            && r.Converged?
            && r.trial == problem.w + Correction(step, problem.w, r.iterations - 1)
            && var t := CalculateDistanceSpec(s, a, f, num).value;
               && t.distance == num.distance(problem, r.trial)
               && t.state.azimuthA == num.azimuthA(problem, problem.w + Correction(step, problem.w, r.iterations))
               && t.state.azimuthB == num.azimuthB(problem, problem.w + Correction(step, problem.w, r.iterations))
  {
    var problem := InverseProblemOf(s, a, f);
    var step := num.correction(problem);
    SolveConvergesIff(step, problem.w);
    var r := Solve(step, problem.w);
    assert r.Converged?;
    var t := CalculateDistanceSpec(s, a, f, num).value;
    assert t.distance == num.distance(problem, r.trial);
    assert t.state.azimuthA == num.azimuthA(problem, problem.w + r.correction);
  }

  // ---- The direct problem (calculatePosition) ----

  /**
   * The data the direct solution works from. It includes the stored azimuth
   * at B, which the code reads (as the sine sa1) whether or not that azimuth
   * is defined.
   */
  datatype DirectProblem = DirectProblem(semiMajorAxis: real, flattening: real, latitudeA: real,
                                         azimuthA: real, azimuthB: real, distance: real)

  /**
   * The trigonometry of the direct solution: the starting arc length
   * distance / (b A); the correction dsig that a pass computes from the
   * trial sigma; and the latitude at B, the longitude difference and the
   * azimuth at B, all computed from the final sigma.
   */
  datatype DirectNumerics = DirectNumerics(
    sigmaStart: DirectProblem -> real,
    correction: DirectProblem -> real -> real,
    latitudeB: (DirectProblem, real) -> real,
    longitudeDifference: (DirectProblem, real) -> real,
    azimuthB: (DirectProblem, real) -> real)

  function DirectProblemOf(s: ArcState, a: real, f: real): DirectProblem {
    DirectProblem(a, f, s.latitudeA, s.azimuthA, s.azimuthB, s.geodesicDistance)
  }

  /**
   * calculatePosition on an arc in state s: position A, azimuth A and the
   * distance are required, in that order; sigma is iterated from its
   * starting value; on convergence position B and azimuth B are stored and
   * flagged, the longitude at B being A's longitude plus the difference.
   */
  function CalculatePositionSpec(s: ArcState, a: real, f: real, num: DirectNumerics): Result<ArcState, ArcError> {
    if !s.havePositionA then Failure(IllegalState("positionA is not defined"))
    else if !s.haveAzimuthA then Failure(IllegalState("azimuthA is not defined"))
    else if !s.haveDistance then Failure(IllegalState("distance is not defined"))
    else
      var problem := DirectProblemOf(s, a, f);
      var base := num.sigmaStart(problem);
      match Solve(num.correction(problem), base)
      case Exhausted(_) => Failure(Arithmetic("Exceeded iteration limit"))
      case Converged(_, correction, _, _) =>
        var sigma := base + correction;
        Success(s.(latitudeB := num.latitudeB(problem, sigma),
                   longitudeB := s.longitudeA + num.longitudeDifference(problem, sigma), havePositionB := true,
                   azimuthB := num.azimuthB(problem, sigma), haveAzimuthB := true))
  }

  /** calculatePosition refuses to start without position A, then azimuth A, then the distance. */
  lemma CalculatePositionNeedsInputs(s: ArcState, a: real, f: real, num: DirectNumerics)
    ensures !s.havePositionA ==> CalculatePositionSpec(s, a, f, num) == Failure(IllegalState("positionA is not defined"))
    ensures s.havePositionA && !s.haveAzimuthA ==>
              CalculatePositionSpec(s, a, f, num) == Failure(IllegalState("azimuthA is not defined"))
    ensures s.havePositionA && s.haveAzimuthA && !s.haveDistance ==>
              CalculatePositionSpec(s, a, f, num) == Failure(IllegalState("distance is not defined"))
  {
  }

  /**
   * calculatePosition succeeds exactly when its three inputs are defined and
   * the convergence test is met within the first ten passes; with the
   * inputs defined and no such pass, it fails with the iteration-limit exception.
   */
  lemma CalculatePositionSucceedsIff(s: ArcState, a: real, f: real, num: DirectNumerics)
    ensures var problem := DirectProblemOf(s, a, f);
            CalculatePositionSpec(s, a, f, num).Success? <==>
              && s.havePositionA && s.haveAzimuthA && s.haveDistance
              && PassesWithin(num.correction(problem), num.sigmaStart(problem), 0, MaxIterations)
    ensures var problem := DirectProblemOf(s, a, f);
            && s.havePositionA && s.haveAzimuthA && s.haveDistance
            && !PassesWithin(num.correction(problem), num.sigmaStart(problem), 0, MaxIterations) ==>
              CalculatePositionSpec(s, a, f, num) == Failure(Arithmetic("Exceeded iteration limit"))
  {
    var problem := DirectProblemOf(s, a, f);
    SolveConvergesIff(num.correction(problem), num.sigmaStart(problem));
  }

  /**
   * On success calculatePosition defines position B and azimuth B and
   * changes nothing else: position A, azimuth A and the distance keep their
   * values and flags.
   */
  lemma CalculatePositionEffects(s: ArcState, a: real, f: real, num: DirectNumerics)
    requires CalculatePositionSpec(s, a, f, num).Success?
    ensures var t := CalculatePositionSpec(s, a, f, num).value;
            && t.LongitudeB().Success? && t.LatitudeB().Success? && t.AzimuthB().Success?
            && t.LongitudeA() == s.LongitudeA() && t.LatitudeA() == s.LatitudeA()
            && t.AzimuthA() == s.AzimuthA() && t.Distance() == s.Distance()
            && t.LongitudeA().Success? && t.AzimuthA().Success? && t.Distance().Success?
  {
  }

  /**
   * Position B and azimuth B are computed from the final sigma: the starting
   * value plus the correction of the first pass that met the test.
   */
  lemma CalculatePositionResults(s: ArcState, a: real, f: real, num: DirectNumerics)
    requires CalculatePositionSpec(s, a, f, num).Success?
    ensures var problem := DirectProblemOf(s, a, f);
            var step := num.correction(problem);
            var base := num.sigmaStart(problem);
            var r := Solve(step, base);
            && r.Converged?
            && var sigma := base + Correction(step, base, r.iterations);
               var t := CalculatePositionSpec(s, a, f, num).value;
               && t.latitudeB == num.latitudeB(problem, sigma)
               && t.longitudeB == s.longitudeA + num.longitudeDifference(problem, sigma)
               && t.azimuthB == num.azimuthB(problem, sigma)
  {
    var problem := DirectProblemOf(s, a, f);
    SolveConvergesIff(num.correction(problem), num.sigmaStart(problem));
  }

  /**
   * Because a successful calculatePosition keeps its inputs, setting a new
   * distance and calling it again never fails for want of an input: it
   * either succeeds or exceeds the iteration limit.
   */
  lemma CalculatePositionRerun(s: ArcState, a: real, f: real, num: DirectNumerics, distance: real)
    requires CalculatePositionSpec(s, a, f, num).Success?
    ensures var r := CalculatePositionSpec(CalculatePositionSpec(s, a, f, num).value.WithDistance(distance), a, f, num);
            r.Success? || r == Failure(Arithmetic("Exceeded iteration limit"))
  {
    var t := CalculatePositionSpec(s, a, f, num).value.WithDistance(distance);
    var problem := DirectProblemOf(t, a, f);
    match Solve(num.correction(problem), num.sigmaStart(problem))
    case Exhausted(_) =>
    case Converged(_, _, _, _) =>
  }

  /**
   * The direct solution reads the stored azimuth at B even when it is not
   * defined: on an arc given only position A, azimuth A and a distance, it
   * works from azimuth B = 0.0, the Java field's initial value.
   */
  lemma CalculatePositionReadsUndefinedAzimuthB(longitude: real, latitude: real, azimuth: real, distance: real,
                                                 a: real, f: real, num: DirectNumerics)
    ensures var s := Initial.WithPositionA(longitude, latitude).WithAzimuthA(azimuth).WithDistance(distance);
            && s.AzimuthB().Failure?
            && DirectProblemOf(s, a, f) == DirectProblem(a, f, latitude, azimuth, 0.0, distance)
            && (CalculatePositionSpec(s, a, f, num).Success? <==>
                  PassesWithin(num.correction(DirectProblemOf(s, a, f)), num.sigmaStart(DirectProblemOf(s, a, f)), 0, MaxIterations))
  {
    var s := Initial.WithPositionA(longitude, latitude).WithAzimuthA(azimuth).WithDistance(distance);
    CalculatePositionSucceedsIff(s, a, f, num);
  }

  // ---- The class ----

  class EllipsoidalArc {
    const ellipsoid: Ellipsoids.Ellipsoid
    var longitudeA: real
    var latitudeA: real
    var longitudeB: real
    var latitudeB: real
    var azimuthA: real
    var azimuthB: real
    var geodesicDistance: real
    var havePositionA: bool
    var havePositionB: bool
    var haveAzimuthA: bool
    var haveAzimuthB: bool
    var haveDistance: bool

    /** The arc's fields as one value. */
    function State(): ArcState
      reads this
    {
      ArcState(longitudeA, latitudeA, longitudeB, latitudeB, azimuthA, azimuthB, geodesicDistance,
               havePositionA, havePositionB, haveAzimuthA, haveAzimuthB, haveDistance)
    }

    constructor (e: Ellipsoids.Ellipsoid)
      ensures ellipsoid == e && State() == Initial
    {
      ellipsoid := e;
      longitudeA, latitudeA, longitudeB, latitudeB := 0.0, 0.0, 0.0, 0.0;
      azimuthA, azimuthB, geodesicDistance := 0.0, 0.0, 0.0;
      havePositionA, havePositionB, haveAzimuthA, haveAzimuthB, haveDistance := false, false, false, false, false;
    }

    /** The Java constructor: a null ellipsoid is refused. */
    static method Create(e: Ellipsoids.Ellipsoid?) returns (r: Result<EllipsoidalArc, ArcError>)
      ensures e == null <==> r.Failure?
      ensures r.Failure? ==> r.error == IllegalArgument("Ellipsoid is null")
      ensures r.Success? ==> fresh(r.value) && r.value.ellipsoid == e && r.value.State() == Initial
    {
      if e == null {
        return Failure(IllegalArgument("Ellipsoid is null"));
      }
      var arc := new EllipsoidalArc(e);
      return Success(arc);
    }

    method SetPositionA(longitude: real, latitude: real)
      modifies this
      ensures State() == old(State()).WithPositionA(longitude, latitude)
    {
      longitudeA := longitude;
      latitudeA := latitude;
      havePositionA := true;
    }

    method SetPositionB(longitude: real, latitude: real)
      modifies this
      ensures State() == old(State()).WithPositionB(longitude, latitude)
    {
      longitudeB := longitude;
      latitudeB := latitude;
      havePositionB := true;
    }

    method SetAzimuthA(azimuth: real)
      modifies this
      ensures State() == old(State()).WithAzimuthA(azimuth)
    {
      azimuthA := azimuth;
      haveAzimuthA := true;
    }

    method SetAzimuthB(azimuth: real)
      modifies this
      ensures State() == old(State()).WithAzimuthB(azimuth)
    {
      azimuthB := azimuth;
      haveAzimuthB := true;
    }

    method SetDistance(distance: real)
      modifies this
      ensures State() == old(State()).WithDistance(distance)
    {
      geodesicDistance := distance;
      haveDistance := true;
    }

    function GetLatitudeA(): Result<real, ArcError> reads this { State().LatitudeA() }
    function GetLongitudeA(): Result<real, ArcError> reads this { State().LongitudeA() }
    function GetLatitudeB(): Result<real, ArcError> reads this { State().LatitudeB() }
    function GetLongitudeB(): Result<real, ArcError> reads this { State().LongitudeB() }
    function GetAzimuthA(): Result<real, ArcError> reads this { State().AzimuthA() }
    function GetAzimuthB(): Result<real, ArcError> reads this { State().AzimuthB() }
    function GetDistance(): Result<real, ArcError> reads this { State().Distance() }

    /**
     * Vincenty's inverse solution: the position checks, the longitude
     * normalisation, the capped do-while loop over lambda, then the stores of
     * both azimuths and the distance. On any failure the arc is left unchanged.
     */
    method CalculateDistance(num: InverseNumerics) returns (r: Result<real, ArcError>)
      modifies this
      ensures var spec := CalculateDistanceSpec(old(State()), ellipsoid.semiMajorAxis, ellipsoid.flattening, num);
              && (spec.Success? ==> r == Success(spec.value.distance) && State() == spec.value.state)
              && (spec.Failure? ==> r == Failure(spec.error) && State() == old(State()))
    {
      var a := ellipsoid.semiMajorAxis;
      var f := ellipsoid.flattening;
      if !havePositionA {
        return Failure(IllegalState("positionA is not defined"));
      }
      if !havePositionB {
        return Failure(IllegalState("positionB is not defined"));
      }
      var w := NormaliseLongitudeDifference(longitudeA, longitudeB);
      var problem := InverseProblem(a, f, latitudeA, latitudeB, w);
      var outcome := Iterate(num.correction(problem), w);
      if outcome.Exhausted? {
        return Failure(Arithmetic("Exceeded iteration limit"));
      }
      var trial := outcome.trial;
      var lambda := w + outcome.correction;
      azimuthA := num.azimuthA(problem, lambda);
      haveAzimuthA := true;
      azimuthB := num.azimuthB(problem, lambda);
      haveAzimuthB := true;
      geodesicDistance := num.distance(problem, trial);
      haveDistance := true;
      return Success(geodesicDistance);
    }

    /**
     * Vincenty's direct solution: the input checks, the capped do-while loop
     * over sigma, then the stores of position B and azimuth B. On any failure
     * the arc is left unchanged.
     */
    method CalculatePosition(num: DirectNumerics) returns (r: Result<(), ArcError>)
      modifies this
      ensures var spec := CalculatePositionSpec(old(State()), ellipsoid.semiMajorAxis, ellipsoid.flattening, num);
              && (spec.Success? ==> r == Success(()) && State() == spec.value)
              && (spec.Failure? ==> r == Failure(spec.error) && State() == old(State()))
    {
      var a := ellipsoid.semiMajorAxis;
      var f := ellipsoid.flattening;
      if !havePositionA {
        return Failure(IllegalState("positionA is not defined"));
      }
      if !haveAzimuthA {
        return Failure(IllegalState("azimuthA is not defined"));
      }
      if !haveDistance {
        return Failure(IllegalState("distance is not defined"));
      }
      var problem := DirectProblem(a, f, latitudeA, azimuthA, azimuthB, geodesicDistance);
      var start := num.sigmaStart(problem);
      var outcome := Iterate(num.correction(problem), start);
      if outcome.Exhausted? {
        return Failure(Arithmetic("Exceeded iteration limit"));
      }
      var sigma := start + outcome.correction;
      latitudeB := num.latitudeB(problem, sigma);
      longitudeB := longitudeA + num.longitudeDifference(problem, sigma);
      havePositionB := true;
      azimuthB := num.azimuthB(problem, sigma);
      haveAzimuthB := true;
      return Success(());
    }
  }
}
