/**
 * The iteration scheme shared by the two Vincenty solvers of
 * EllipsoidalArc. Each runs a do-while loop that refines a value x by a
 * correction c: starting from x = base and c = 0, a pass computes
 * c := step(x) and then x := base + c. The loop stops once two successive
 * corrections differ by at most 1e-8, or once the pass counter exceeds 10;
 * an exceeded counter is reported as a failure to converge, even when the
 * eleventh pass met the tolerance.
 */
module CappedIteration {

  import opened JavaArith

  const MaxIterations: nat := 10
  const Epsilon: real := 0.00000001

  /**
   * How the loop ended: converged on the pass numbered `iterations`, whose
   * input was `trial` and whose correction was `correction`, the pass before
   * having produced `previous`; or stopped by the counter.
   */
  datatype Outcome =
    | Converged(trial: real, correction: real, previous: real, iterations: nat)
    | Exhausted(iterations: nat)

  /**
   * The outcome of the loop once `passes` passes have run, the last of them
   * on input `trial`, producing correction c after correction `last`.
   */
  function Resume(step: real -> real, base: real, trial: real, c: real, last: real, passes: nat): Outcome
    requires 1 <= passes <= MaxIterations + 1
    decreases MaxIterations + 1 - passes
  {
    if passes > MaxIterations then Exhausted(passes)
    else if Abs(c - last) <= Epsilon then Converged(trial, c, last, passes)
    else Resume(step, base, base + c, step(base + c), c, passes + 1)
  }

  /** The whole loop, from its first pass on x = base with previous correction 0. */
  function Solve(step: real -> real, base: real): Outcome {
    Resume(step, base, base, step(base), 0.0, 1)
  }

  /**
   * The loop stops on a pass numbered at most 10 whose correction met the
   * test and was computed from that pass's input, or else after exactly 11
   * passes: the body never runs a twelfth time.
   */
  lemma {:induction false} ResumeBounds(step: real -> real, base: real, trial: real, c: real, last: real, passes: nat)
    requires 1 <= passes <= MaxIterations + 1
    requires c == step(trial)
    decreases MaxIterations + 1 - passes
    ensures var r := Resume(step, base, trial, c, last, passes);
            && (r.Converged? ==>
                  && passes <= r.iterations <= MaxIterations
                  && Abs(r.correction - r.previous) <= Epsilon
                  && r.correction == step(r.trial))
            && (r.Exhausted? ==> r.iterations == MaxIterations + 1)
  {
    if passes <= MaxIterations && Abs(c - last) > Epsilon {
      ResumeBounds(step, base, base + c, step(base + c), c, passes + 1);
    }
  }

  lemma SolveBounds(step: real -> real, base: real)
    ensures var r := Solve(step, base);
            && (r.Converged? ==>
                  && 1 <= r.iterations <= MaxIterations
                  && Abs(r.correction - r.previous) <= Epsilon
                  && r.correction == step(r.trial))
            && (r.Exhausted? ==> r.iterations == MaxIterations + 1)
  {
    ResumeBounds(step, base, base, step(base), 0.0, 1);
  }

  /** A pass that does not meet the test, within the cap, hands over to the next pass. */
  lemma ResumeContinues(step: real -> real, base: real, trial: real, c: real, last: real, passes: nat)
    requires 1 <= passes <= MaxIterations && Abs(c - last) > Epsilon
    ensures Resume(step, base, trial, c, last, passes) == Resume(step, base, base + c, step(base + c), c, passes + 1)
  {
  }

  /** Where the loop leaves off: stopped by the counter, or converged on the current pass. */
  lemma ResumeStops(step: real -> real, base: real, trial: real, c: real, last: real, passes: nat)
    requires 1 <= passes <= MaxIterations + 1
    requires passes > MaxIterations || Abs(c - last) <= Epsilon
    ensures passes > MaxIterations ==> Resume(step, base, trial, c, last, passes) == Exhausted(passes)
    ensures passes <= MaxIterations ==> Resume(step, base, trial, c, last, passes) == Converged(trial, c, last, passes)
  {
  }

  /**
   * The do-while loop itself, as both solvers run it: the first pass always
   * runs; further passes run while the correction still moves by more than
   * Epsilon and at most MaxIterations passes have run. In calculateDistance
   * x, c and last are lambda, dlam and lastdlam; in calculatePosition they
   * are sigma, dsig and lastdsig.
   */
  method Iterate(step: real -> real, base: real) returns (r: Outcome)
    ensures r == Solve(step, base)
  {
    // The first pass of the do-while loop, from x = base and c = 0.
    var last := 0.0;
    var trial := base;
    var c := step(trial);
    var x := base + c;
    var nIters := 1;
    while Abs(c - last) > Epsilon && nIters <= MaxIterations
      invariant 1 <= nIters <= MaxIterations + 1
      invariant x == base + c
      invariant Solve(step, base) == Resume(step, base, trial, c, last, nIters)
      decreases MaxIterations + 1 - nIters
    {
      ResumeContinues(step, base, trial, c, last, nIters);
      last := c;
      trial := x;
      c := step(x);
      x := base + c;
      nIters := nIters + 1;
    }
    ResumeStops(step, base, trial, c, last, nIters);
    if nIters > MaxIterations {
      return Exhausted(nIters);
    }
    return Converged(trial, c, last, nIters);
  }

  // An independent description of the same loop: the sequence of corrections.

  /** The correction after k passes. */
  function Correction(step: real -> real, base: real, k: nat): real {
    if k == 0 then 0.0 else step(base + Correction(step, base, k - 1))
  }

  /** The convergence test of pass k (k >= 1). */
  predicate PassesAt(step: real -> real, base: real, k: nat)
    requires k >= 1
  {
    Abs(Correction(step, base, k) - Correction(step, base, k - 1)) <= Epsilon
  }

  /** Some pass numbered in lo+1 .. hi meets the convergence test. */
  predicate PassesWithin(step: real -> real, base: real, lo: nat, hi: nat)
    decreases hi - lo
  {
    lo < hi && (PassesAt(step, base, lo + 1) || PassesWithin(step, base, lo + 1, hi))
  }

  /** The loop's state after k passes, as the sequence of corrections describes it. */
  function ResumeFrom(step: real -> real, base: real, k: nat): Outcome
    requires 1 <= k <= MaxIterations + 1
  {
    Resume(step, base, base + Correction(step, base, k - 1), Correction(step, base, k), Correction(step, base, k - 1), k)
  }

  /** One more pass of the loop is one more step along the sequence of corrections. */
  lemma ResumeFromUnfold(step: real -> real, base: real, k: nat)
    requires 1 <= k <= MaxIterations + 1
    ensures ResumeFrom(step, base, k) ==
              if k > MaxIterations then Exhausted(k)
              else if PassesAt(step, base, k) then
                Converged(base + Correction(step, base, k - 1), Correction(step, base, k), Correction(step, base, k - 1), k)
              else ResumeFrom(step, base, k + 1)
  {
    if k <= MaxIterations && !PassesAt(step, base, k) {
      assert Correction(step, base, k + 1) == step(base + Correction(step, base, k));
    }
  }

  /** From pass k on, the loop converges exactly when some pass numbered from k to 10 meets the test. */
  lemma {:induction false} ResumeConvergesIff(step: real -> real, base: real, k: nat)
    requires 1 <= k <= MaxIterations + 1
    ensures ResumeFrom(step, base, k).Converged? <==> PassesWithin(step, base, k - 1, MaxIterations)
    decreases MaxIterations + 1 - k
  {
    ResumeFromUnfold(step, base, k);
    if k <= MaxIterations && !PassesAt(step, base, k) {
      ResumeConvergesIff(step, base, k + 1);
    }
  }

  /**
   * When the loop converges from pass k on, it stops at the first pass that
   * meets the test, and its input and correction are those of that pass.
   */
  lemma {:induction false} ResumeStopsAtFirstPass(step: real -> real, base: real, k: nat)
    requires 1 <= k <= MaxIterations + 1
    ensures var r := ResumeFrom(step, base, k);
            r.Converged? ==>
              && k <= r.iterations
              && PassesAt(step, base, r.iterations)
              && !PassesWithin(step, base, k - 1, r.iterations - 1)
              && r.trial == base + Correction(step, base, r.iterations - 1)
              && r.correction == Correction(step, base, r.iterations)
    decreases MaxIterations + 1 - k
  {
    ResumeFromUnfold(step, base, k);
    var r := ResumeFrom(step, base, k);
    if k <= MaxIterations && PassesAt(step, base, k) {
      assert !PassesWithin(step, base, k - 1, k - 1);
    } else if k <= MaxIterations {
      ResumeStopsAtFirstPass(step, base, k + 1);
      if r.Converged? {
        assert PassesWithin(step, base, k - 1, r.iterations - 1) == PassesWithin(step, base, k, r.iterations - 1);
      }
    }
  }

  /**
   * A solver succeeds exactly when the convergence test is met within the
   * first ten passes; it then stops at the first pass that meets it, whose
   * input is base plus the correction before and whose correction is the
   * one that pass computed.
   */
  lemma SolveConvergesIff(step: real -> real, base: real)
    ensures Solve(step, base).Converged? <==> PassesWithin(step, base, 0, MaxIterations)
    ensures var r := Solve(step, base);
            r.Converged? ==>
              && PassesAt(step, base, r.iterations) && !PassesWithin(step, base, 0, r.iterations - 1)
              && r.trial == base + Correction(step, base, r.iterations - 1)
              && r.correction == Correction(step, base, r.iterations)
  {
    assert Solve(step, base) == ResumeFrom(step, base, 1);
    ResumeConvergesIff(step, base, 1);
    ResumeStopsAtFirstPass(step, base, 1);
  }
}
