/** Fixed simulation settings of the MATLAB entry point: onset, resolution,
    sampling reduction, the step width `dt` and the irrational constants the
    stochastic Runge-Kutta scheme needs. */
module Settings {

  /** Seconds simulated before data is stored. */
  const Onset: int := 20

  /** Integration steps per second. */
  const Res: int := 10000

  /** Only every `Red`-th step is stored. */
  const Red: int := 100

  /** Duration of one integration step in ms: 1E3/res, that is 0.1. */
  const Dt: real := 0.1

  lemma DtIsStepDuration()
    ensures Dt == 1000.0 / Res as real
  {
  }

  /** `h = sqrt(dt)` and `sqrt(3)` cannot be written as real literals; they are
      carried as a record and constrained by `ValidRoots`. */
  datatype Roots = Roots(h: real, sqrt3: real)

  /** Both roots are positive: all the formulas need to divide by them. */
  predicate PositiveRoots(roots: Roots) {
    roots.h > 0.0 && roots.sqrt3 > 0.0
  }

  /** The roots are exactly `sqrt(dt)` and `sqrt(3)`; only the statements
      about the summed noise depend on these squares. */
  predicate ValidRoots(roots: Roots) {
    && PositiveRoots(roots)
    && roots.h * roots.h == Dt
    && roots.sqrt3 * roots.sqrt3 == 3.0
  }

  /** `dt / h == h`: the cortical stage noise is scaled by `1/h` inside a term
      multiplied by `dt`, so the stage carries `h` times the draws. */
  lemma DtOverH(roots: Roots)
    requires ValidRoots(roots)
    ensures Dt / roots.h == roots.h
  {
    assert Dt == roots.h * roots.h;
  }
}
