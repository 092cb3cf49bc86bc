/** The two staging conventions of the stochastic Runge-Kutta scheme, per
    variable. The cortex writes increments `Dt*f` into slot n at stage n and
    adds `(s1 + 2 s2 + 2 s3 + s4)/6` to slot 0; the thalamus writes full values
    `s0 + A[n]*Dt*f` into slot n+1 at stage n (0-based) and replaces slot 0 by
    `(-3 s0 + 2 s1 + 4 s2 + 2 s3 + s4)/6`. Both are the classical fourth-order
    Runge-Kutta step, stated here against a textbook reference. */
module Rk {
  import opened Slots
  import opened Settings

  /** Stage fractions and stage-noise weights, declared identically by both
      column headers. */
  const A: seq<real> := [0.5, 0.5, 1.0, 1.0]
  const B: seq<real> := [0.75, 0.75, 0.0, 0.0]

  /** Cortical stage write: slot n receives `Dt * d`. */
  function IncrementWrite(v: Slots, n: int, d: real): (r: Slots)
    requires 1 <= n <= 4
    ensures SameExcept(r, v, n) && r.s0 == v.s0
    ensures Get(r, n) == Dt * d
  {
    With(v, n, Dt * d)
  }

  /** Thalamic stage write at 0-based stage n: slot n+1 receives the full value
      `s0 + A[n]*Dt*d`, plus `extra` (the stage noise of a noisy variable). */
  function FullValueWrite(v: Slots, n: int, d: real, extra: real): (r: Slots)
    requires 0 <= n <= 3
    ensures SameExcept(r, v, n + 1) && r.s0 == v.s0
    ensures Get(r, n + 1) - v.s0 == A[n] * Dt * d + extra
  {
    With(v, n + 1, v.s0 + A[n] * Dt * d + extra)
  }

  /** Cortical combine (`add_RK`): slot 0 advances by the RK4-weighted mean of
      the four increments. */
  function IncrementCombine(v: Slots): (r: Slots)
    ensures SameExcept(r, v, 0)
    ensures v.s1 == v.s2 == v.s3 == v.s4 ==> r.s0 == v.s0 + v.s1
    ensures v.s1 >= 0.0 && v.s2 >= 0.0 && v.s3 >= 0.0 && v.s4 >= 0.0 ==> r.s0 >= v.s0
  {
    v.(s0 := v.s0 + (v.s1 + v.s2 * 2.0 + v.s3 * 2.0 + v.s4) / 6.0)
  }

  /** Thalamic combine (`add_RK`): slot 0 becomes the weighted sum with weights
      -3, 2, 4, 2, 1 over 6. */
  function FullValueCombine(v: Slots): (r: Slots)
    ensures SameExcept(r, v, 0)
    ensures v.s0 == v.s1 == v.s2 == v.s3 == v.s4 ==> r.s0 == v.s0
  {
    v.(s0 := (-3.0 * v.s0 + 2.0 * v.s1 + 4.0 * v.s2 + 2.0 * v.s3 + v.s4) / 6.0)
  }

  /** Adds a one-time noise term to slot 0. */
  function AddToValue(v: Slots, x: real): (r: Slots)
    ensures SameExcept(r, v, 0) && r.s0 == v.s0 + x
  {
    v.(s0 := v.s0 + x)
  }

  /** Textbook fourth-order Runge-Kutta step of `y' = f(y)` with width `Dt`. */
  function ClassicStep(f: real -> real, y: real): real {
    var k1 := f(y);
    var k2 := f(y + Dt * k1 / 2.0);
    var k3 := f(y + Dt * k2 / 2.0);
    var k4 := f(y + Dt * k3);
    Rk4Sum(y, k1, k2, k3, k4)
  }

  /** One cortical-style stage of the scalar equation `y' = f(y)`. */
  function IncrementStage(f: real -> real, v: Slots, n: int): Slots
    requires 1 <= n <= 4
  {
    IncrementWrite(v, n, f(StageInput(v, n)))
  }

  /** One thalamic-style stage of the scalar equation `y' = f(y)`: the stage
      input is slot n itself. */
  function FullValueStage(f: real -> real, v: Slots, n: int): Slots
    requires 0 <= n <= 3
  {
    FullValueWrite(v, n, f(Get(v, n)), 0.0)
  }

  /** The complete cortical step: stages 1..4, then the combine. */
  function IncrementStep(f: real -> real, v: Slots): Slots {
    var v1 := IncrementStage(f, v, 1);
    var v2 := IncrementStage(f, v1, 2);
    var v3 := IncrementStage(f, v2, 3);
    var v4 := IncrementStage(f, v3, 4);
    IncrementCombine(v4)
  }

  /** The complete thalamic step: stages 0..3, then the combine. */
  function FullValueStep(f: real -> real, v: Slots): Slots {
    var v1 := FullValueStage(f, v, 0);
    var v2 := FullValueStage(f, v1, 1);
    var v3 := FullValueStage(f, v2, 2);
    var v4 := FullValueStage(f, v3, 3);
    FullValueCombine(v4)
  }

  /** Headline: given the same slot-0 value and the same four right-hand-side
      values, the thalamic full-value combine and the cortical increment
      combine produce the same new value, whatever the stale slot contents. */
  lemma CombinesAgree(vc: Slots, vt: Slots, f0: real, f1: real, f2: real, f3: real)
    requires vc.s0 == vt.s0
    ensures
      var c := IncrementWrite(IncrementWrite(IncrementWrite(IncrementWrite(vc, 1, f0), 2, f1), 3, f2), 4, f3);
      var t := FullValueWrite(FullValueWrite(FullValueWrite(FullValueWrite(vt, 0, f0, 0.0), 1, f1, 0.0), 2, f2, 0.0), 3, f3, 0.0);
      IncrementCombine(c).s0 == FullValueCombine(t).s0 == vc.s0 + Dt * (f0 + 2.0 * f1 + 2.0 * f2 + f3) / 6.0
  {
  }

  /** The RK4 combination of four stage derivatives. */
  function Rk4Sum(y: real, k1: real, k2: real, k3: real, k4: real): real {
    y + Dt * (k1 + 2.0 * k2 + 2.0 * k3 + k4) / 6.0
  }

  /** The increment weights applied to `Dt`-scaled stage derivatives. */
  lemma IncrementWeights(y: real, k1: real, k2: real, k3: real, k4: real)
    ensures IncrementCombine(Slots(y, Dt * k1, Dt * k2, Dt * k3, Dt * k4)).s0 == Rk4Sum(y, k1, k2, k3, k4)
  {
    assert Dt * k1 + Dt * k2 * 2.0 + Dt * k3 * 2.0 + Dt * k4 == Dt * (k1 + 2.0 * k2 + 2.0 * k3 + k4);
  }

  /** The full-value weights applied to stage values `y + A[n]*Dt*k`. */
  lemma FullValueWeights(y: real, k1: real, k2: real, k3: real, k4: real)
    ensures FullValueCombine(Slots(y, y + 0.5 * Dt * k1, y + 0.5 * Dt * k2, y + 1.0 * Dt * k3, y + 1.0 * Dt * k4)).s0
         == Rk4Sum(y, k1, k2, k3, k4)
  {
    assert 2.0 * (0.5 * Dt * k1) + 4.0 * (0.5 * Dt * k2) + 2.0 * (1.0 * Dt * k3) + 1.0 * Dt * k4
        == Dt * (k1 + 2.0 * k2 + 2.0 * k3 + k4);
  }

  /** The full-value weights when stage values also carry additive noise
      `e1..e4`: the noise enters the result with the same weights 2, 4, 2, 1
      over 6 as the stage values. */
  lemma FullValueWeightsNoisy(y: real, k1: real, k2: real, k3: real, k4: real, e1: real, e2: real, e3: real, e4: real)
    ensures FullValueCombine(Slots(y, y + A[0] * Dt * k1 + e1, y + A[1] * Dt * k2 + e2,
                                   y + A[2] * Dt * k3 + e3, y + A[3] * Dt * k4 + e4)).s0
         == Rk4Sum(y, k1, k2, k3, k4) + (2.0 * e1 + 4.0 * e2 + 2.0 * e3 + e4) / 6.0
  {
    FullValueWeights(y, k1, k2, k3, k4);
  }

  /** Four cortical stage writes followed by the combine advance slot 0 by
      the RK4 sum of the four derivatives, whatever the slots held before. */
  lemma IncrementChain(v: Slots, k1: real, k2: real, k3: real, k4: real)
    ensures IncrementCombine(IncrementWrite(IncrementWrite(IncrementWrite(IncrementWrite(v, 1, k1), 2, k2), 3, k3), 4, k4)).s0
         == Rk4Sum(v.s0, k1, k2, k3, k4)
  {
    var w := IncrementWrite(IncrementWrite(IncrementWrite(IncrementWrite(v, 1, k1), 2, k2), 3, k3), 4, k4);
    assert w == Slots(v.s0, Dt * k1, Dt * k2, Dt * k3, Dt * k4);
    IncrementWeights(v.s0, k1, k2, k3, k4);
  }

  /** Four thalamic stage writes, stage n adding `e_n` to its full value,
      followed by the combine: slot 0 becomes the RK4 sum plus the noises
      with weights 2, 4, 2, 1 over 6, whatever the slots held before. */
  lemma FullValueChain(v: Slots, k1: real, k2: real, k3: real, k4: real, e1: real, e2: real, e3: real, e4: real)
    ensures FullValueCombine(FullValueWrite(FullValueWrite(FullValueWrite(FullValueWrite(v, 0, k1, e1), 1, k2, e2), 2, k3, e3), 3, k4, e4)).s0
         == Rk4Sum(v.s0, k1, k2, k3, k4) + (2.0 * e1 + 4.0 * e2 + 2.0 * e3 + e4) / 6.0
  {
    var y := v.s0;
    var w := FullValueWrite(FullValueWrite(FullValueWrite(FullValueWrite(v, 0, k1, e1), 1, k2, e2), 2, k3, e3), 3, k4, e4);
    assert w == Slots(y, y + A[0] * Dt * k1 + e1, y + A[1] * Dt * k2 + e2, y + A[2] * Dt * k3 + e3, y + A[3] * Dt * k4 + e4);
    FullValueWeightsNoisy(y, k1, k2, k3, k4, e1, e2, e3, e4);
  }

  /** The thalamic stage fractions `A[n]` are the cortical reconstruction
      weights of the following stage. */
  lemma StageFractions()
    ensures forall n | 0 <= n <= 2 :: A[n] == StageWeight(n + 2)
  {
  }

  /** The cortical convention is the classical RK4 step; slots left over from
      the previous step never leak into the result. */
  lemma IncrementStepIsClassic(f: real -> real, v: Slots)
    ensures IncrementStep(f, v).s0 == ClassicStep(f, v.s0)
  {
    var y := v.s0;
    var k1 := f(y);
    var k2 := f(y + Dt * k1 / 2.0);
    var k3 := f(y + Dt * k2 / 2.0);
    var k4 := f(y + Dt * k3);
    var v1 := IncrementStage(f, v, 1);
    assert v1.s0 == y && v1.s1 == Dt * k1;
    var v2 := IncrementStage(f, v1, 2);
    assert v2.s0 == y && v2.s1 == Dt * k1 && v2.s2 == Dt * k2;
    var v3 := IncrementStage(f, v2, 3);
    assert v3.s0 == y && v3.s1 == Dt * k1 && v3.s2 == Dt * k2 && v3.s3 == Dt * k3;
    var v4 := IncrementStage(f, v3, 4);
    assert v4 == Slots(y, Dt * k1, Dt * k2, Dt * k3, Dt * k4);
    IncrementWeights(y, k1, k2, k3, k4);
  }

  /** The thalamic convention is the classical RK4 step as well. */
  lemma FullValueStepIsClassic(f: real -> real, v: Slots)
    ensures FullValueStep(f, v).s0 == ClassicStep(f, v.s0)
  {
    var y := v.s0;
    var k1 := f(y);
    var k2 := f(y + Dt * k1 / 2.0);
    var k3 := f(y + Dt * k2 / 2.0);
    var k4 := f(y + Dt * k3);
    var v1 := FullValueStage(f, v, 0);
    assert v1.s0 == y && v1.s1 == y + 0.5 * Dt * k1;
    assert v1.s1 == y + Dt * k1 / 2.0;
    var v2 := FullValueStage(f, v1, 1);
    assert v2.s2 == y + 0.5 * Dt * k2;
    assert v2.s2 == y + Dt * k2 / 2.0;
    var v3 := FullValueStage(f, v2, 2);
    assert v3.s3 == y + 1.0 * Dt * k3;
    var v4 := FullValueStage(f, v3, 3);
    assert v4 == Slots(y, y + 0.5 * Dt * k1, y + 0.5 * Dt * k2, y + 1.0 * Dt * k3, y + 1.0 * Dt * k4);
    FullValueWeights(y, k1, k2, k3, k4);
  }
}
