/** The cortical column (`Cortical_Column`): thirteen five-slot variables, the
    linear and rational parts of its right-hand side, the increment-form stage
    `set_RK(N)` for N in 1..4 and the combine `add_RK`. The sigmoidal firing
    rates and the sodium-dependent potassium activation are supplied as
    functions in a `Rates` record; everything else is concrete.

    The implementation file and the header disagree on names; this module uses
    the implementation file's: `Phi_ee, Phi_ei, Phi_ie, Phi_ii` for the header's
    `y_ee .. y_ii`, `phi_e` for `y`, `y_e` for `x`, `gL_e = gL_i = g_L`. */
module Cortex {
  import opened Settings
  import opened CArith
  import opened Slots
  import opened Rk

  /** The dynamical variables, in declaration order. */
  datatype Var = Ve | Vi | Na | PhiEE | PhiEI | PhiIE | PhiII | PhiE | XEE | XEI | XIE | XII | YE

  /** The state of one column: a five-slot vector per variable, and the
      Gaussian draws of the current step (`Rand_vars`). */
  datatype Column = Column(vars: Var -> Slots, rand: seq<real>, prm: Params)

  /** One real per variable: the stage inputs, or the right-hand side. */
  type Point = Var -> real

  /** The parameters the simulation constructor may override. */
  datatype Params = Params(sigmaE: real, gKNa: real, dphi: real, nTE: real, nTI: real)

  /** The transcendental parts of the right-hand side: the pyramidal sigmoid
      (which takes `sigma_e`), the inhibitory sigmoid and `w_KNa(Na)`. */
  datatype Rates = Rates(qe: (real, real) -> real, qi: real -> real, wKNa: real -> real)

  // Constants of the header that the right-hand side uses.
  const TauE: real := 30.0
  const TauI: real := 30.0
  const AlphaNa: real := 2.0
  const TauNa: real := 1.7
  const RPump: real := 0.09
  const NaEq: real := 9.5
  const GammaE: real := 0.07
  const GammaI: real := 0.0586
  const Nu: real := 0.12
  const GL: real := 1.0
  const EAmpa: real := 0.0
  const EGaba: real := -70.0
  const ELE: real := -64.0
  const ELI: real := -64.0
  const EK: real := -100.0
  const NEE: real := 115.0
  const NEI: real := 72.0
  const NIE: real := 90.0
  const NII: real := 90.0

  /** The header defaults of the overridable parameters. */
  const Defaults: Params := Params(4.0, 1.33, 2.0, 2.5, 2.5)

  /** Stage-noise tables of the cortical scheme (`B1`, `B2`). */
  const B1: seq<real> := [0.0, 0.626708569400000081728308032325, 1.7296310295000001389098542858846, 1.2703689705000000831347506391467]
  const B2: seq<real> := [0.0, 0.78000033203198970710445792065002, 1.28727807507536762265942797967, 0.44477273249350995909523476257164]

  /** The simulation constructor: `sigma_e, g_KNa, dphi` from the parameter
      array, `N_te, N_ti` from entries 2 and 3 of the connection array. */
  function FromArrays(param: seq<real>, con: seq<real>): (p: Params)
    requires |param| >= 3 && |con| >= 4
  {
    Params(param[0], param[1], param[2], con[2], con[3])
  }

  /** The constructor reads exactly `param[0..3]` and `con[2..4]`: arrays that
      agree there give the same column parameters. */
  lemma FromArraysReads(param: seq<real>, con: seq<real>, param': seq<real>, con': seq<real>)
    requires |param| >= 3 && |con| >= 4 && |param'| >= 3 && |con'| >= 4
    ensures FromArrays(param, con) == FromArrays(param', con')
        <==> param[..3] == param'[..3] && con[2..4] == con'[2..4]
  {
    if param[..3] == param'[..3] && con[2..4] == con'[2..4] {
      assert param[0] == param[..3][0] && param[1] == param[..3][1] && param[2] == param[..3][2];
      assert param'[0] == param'[..3][0] && param'[1] == param'[..3][1] && param'[2] == param'[..3][2];
      assert con[2] == con[2..4][0] && con[3] == con[2..4][1];
      assert con'[2] == con'[2..4][0] && con'[3] == con'[2..4][1];
    }
    if FromArrays(param, con) == FromArrays(param', con') {
      assert param[..3] == [param[0], param[1], param[2]];
      assert param'[..3] == [param'[0], param'[1], param'[2]];
      assert con[2..4] == [con[2], con[3]];
      assert con'[2..4] == [con'[2], con'[3]];
    }
  }

  /** The variable `x` of column `c`. */
  function Slot(c: Column, x: Var): Slots {
    c.vars(x)
  }

  /** The component `x` of a point. */
  function At(p: Point, x: Var): real {
    p(x)
  }

  /** The stage-`n` inputs of every variable (`_SWITCH` applied to all of them). */
  function Inputs(c: Column, n: int): (p: Point)
    ensures forall x :: At(p, x) == StageInput(Slot(c, x), n)
  {
    x => StageInput(Slot(c, x), n)
  }

  /** `get_phi(N)`: the stage-N input of the cortical flux. */
  function GetPhi(c: Column, n: int): (r: real)
    ensures r == At(Inputs(c, n), PhiE)
    ensures 1 <= n <= 4 ==> r == Slot(c, PhiE).s0 + StageWeight(n) * Get(Slot(c, PhiE), n - 1)
  {
    StageInput(Slot(c, PhiE), n)
  }

  // Currents at the stage inputs.

  /** `I_ee`: excitatory input to the pyramidal population. */
  function Iee(p: Point): (r: real)
    ensures p(PhiEE) == 0.0 || p(Ve) == EAmpa ==> r == 0.0
  {
    p(PhiEE) * (p(Ve) - EAmpa)
  }

  /** `I_ie`: inhibitory input to the pyramidal population. */
  function Iie(p: Point): (r: real)
    ensures p(PhiIE) == 0.0 || p(Ve) == EGaba ==> r == 0.0
  {
    p(PhiIE) * (p(Ve) - EGaba)
  }

  /** `I_ei`: excitatory input to the inhibitory population. */
  function Iei(p: Point): (r: real)
    ensures p(PhiEI) == 0.0 || p(Vi) == EAmpa ==> r == 0.0
  {
    p(PhiEI) * (p(Vi) - EAmpa)
  }

  /** `I_ii`: inhibitory input to the inhibitory population. */
  function Iii(p: Point): (r: real)
    ensures p(PhiII) == 0.0 || p(Vi) == EGaba ==> r == 0.0
  {
    p(PhiII) * (p(Vi) - EGaba)
  }

  /** `I_L_e`: pyramidal leak. */
  function ILe(p: Point): (r: real)
    ensures r == 0.0 <==> p(Ve) == ELE
    ensures p(Ve) > ELE ==> r > 0.0
  {
    GL * (p(Ve) - ELE)
  }

  /** `I_L_i`: inhibitory leak. */
  function ILi(p: Point): (r: real)
    ensures r == 0.0 <==> p(Vi) == ELI
    ensures p(Vi) > ELI ==> r > 0.0
  {
    GL * (p(Vi) - ELI)
  }

  /** `I_KNa`: sodium-dependent potassium current, with `w_KNa` supplied. */
  function IKNa(p: Point, prm: Params, rates: Rates): (r: real)
    ensures p(Ve) == EK ==> r == 0.0
  {
    prm.gKNa * rates.wKNa(p(Na)) * (p(Ve) - EK)
  }

  /** `Na^3 / (Na^3 + 3375)`, the saturating pump activation. */
  function PumpActivation(na: real): real {
    Ratio(na * na * na, na * na * na + 3375.0)
  }

  /** `Na_pump`: the Na-K pump relative to its resting rate. */
  function NaPump(na: real): (r: real)
    ensures na == NaEq ==> r == 0.0
  {
    RPump * (PumpActivation(na) - PumpActivation(NaEq))
  }

  /** Above the equilibrium concentration the pump removes sodium, below it
      the pump term is negative: the activation is increasing on `Na >= 0`. */
  lemma NaPumpSign(na: real)
    requires na >= 0.0
    ensures na > NaEq ==> NaPump(na) > 0.0
    ensures na < NaEq ==> NaPump(na) < 0.0
  {
    if na > NaEq {
      PumpActivationIncreasing(NaEq, na);
    } else if na < NaEq {
      PumpActivationIncreasing(na, NaEq);
    }
  }

  /** `a^3/(a^3+K)` grows strictly with `a >= 0`. */
  lemma PumpActivationIncreasing(a: real, b: real)
    requires 0.0 <= a < b
    ensures PumpActivation(a) < PumpActivation(b)
  {
    var a3 := a * a * a;
    var b3 := b * b * b;
    assert a * a <= b * a;
    assert a * a * a <= b * a * a;
    assert b * a * a <= b * b * a;
    assert b * b * a < b * b * b;
    assert a3 < b3;
    var ka := a3 + 3375.0;
    var kb := b3 + 3375.0;
    var pa := PumpActivation(a);
    var pb := PumpActivation(b);
    assert pa * ka == a3;
    assert pb * kb == b3;
    // a3/ka < b3/kb because a3*kb - b3*ka == 3375*(a3 - b3) < 0.
    assert a3 * kb < b3 * ka;
    assert ka * kb > 0.0;
    assert pa * (ka * kb) == a3 * kb;
    assert pb * (ka * kb) == b3 * ka;
    CancelPositive(pa, pb, ka * kb);
  }

  /** `noise_xRK(N, M)` as a function of its two draws `r[2M]`, `r[2M+1]`. */
  function NoiseX(roots: Roots, n: int, d0: real, d1: real): real
    requires 1 <= n <= 4 && PositiveRoots(roots)
  {
    (B1[n - 1] * d0 + B2[n - 1] * d1) / roots.h
  }

  /** The stage noise is linear in the draws, and it vanishes at stage 1
      whatever the draws, because the first entries of `B1` and `B2` are 0. */
  lemma NoiseXLinear(roots: Roots, n: int, d0: real, d1: real, e0: real, e1: real, a: real, b: real)
    requires 1 <= n <= 4 && PositiveRoots(roots)
    ensures NoiseX(roots, n, a * d0 + b * e0, a * d1 + b * e1)
         == a * NoiseX(roots, n, d0, d1) + b * NoiseX(roots, n, e0, e1)
    ensures NoiseX(roots, n, 0.0, 0.0) == 0.0
    ensures NoiseX(roots, 1, d0, d1) == 0.0
  {
    var p := B1[n - 1];
    var q := B2[n - 1];
    assert p * (a * d0 + b * e0) + q * (a * d1 + b * e1) == a * (p * d0 + q * d1) + b * (p * e0 + q * e1);
    var h := roots.h;
    var u := (p * d0 + q * d1) / h;
    var w := (p * e0 + q * e1) / h;
    assert u * h == p * d0 + q * d1;
    assert w * h == p * e0 + q * e1;
    assert (a * u + b * w) * h == a * (p * d0 + q * d1) + b * (p * e0 + q * e1);
  }

  /** The right-hand side at the stage inputs `p`, given the thalamic flux
      `phiT` the cortex couples to and the two stage-noise values. */
  function Rhs(p: Point, prm: Params, rates: Rates, phiT: real, n0: real, n1: real): Point {
    (x: Var) => RhsAt(p, prm, rates, phiT, n0, n1, x)
  }

  /** Component `x` of the right-hand side. */
  function RhsAt(p: Point, prm: Params, rates: Rates, phiT: real, n0: real, n1: real, x: Var): real {
    var qe := rates.qe(prm.sigmaE, p(Ve));
    var qi := rates.qi(p(Vi));
    match x
      case Ve => -(ILe(p) + Iee(p) + Iie(p)) / TauE - IKNa(p, prm, rates)
      case Vi => -(ILi(p) + Iei(p) + Iii(p)) / TauI
      case Na => (AlphaNa * qe - NaPump(p(Na))) / TauNa
      case PhiEE => p(XEE)
      case PhiEI => p(XEI)
      case PhiIE => p(XIE)
      case PhiII => p(XII)
      case PhiE => p(YE)
      case XEE => GammaE * GammaE * (NEE * qe + prm.nTE * phiT + n0 - p(PhiEE)) - 2.0 * GammaE * p(XEE)
      case XEI => GammaE * GammaE * (NEI * qe + prm.nTI * phiT + n1 - p(PhiEI)) - 2.0 * GammaE * p(XEI)
      case XIE => GammaI * GammaI * (NIE * qi - p(PhiIE)) - 2.0 * GammaI * p(XIE)
      case XII => GammaI * GammaI * (NII * qi - p(PhiII)) - 2.0 * GammaI * p(XII)
      case YE => Nu * Nu * (qe - p(PhiE)) - 2.0 * Nu * p(YE)
  }


  /** A right-hand side as a stage uses it: the derivative at the stage
      inputs, given the parameters, the thalamic flux and the two stage-noise
      values. The driver is stated for any such field; the column's own is
      `Equations`. */
  type Field = (Point, Params, real, real, real) -> Point

  /** The column's right-hand side with the supplied rates. */
  function Equations(rates: Rates): Field {
    (p: Point, prm: Params, phiT: real, n0: real, n1: real) => Rhs(p, prm, rates, phiT, n0, n1)
  }

  /** The coupling and the noise enter only the two excitatory derivatives
      `x_ee` and `x_ei`, each with weight `gamma_e^2`. */
  lemma RhsDrive(p: Point, prm: Params, rates: Rates, phiT: real, n0: real, n1: real, phiT': real, n0': real, n1': real)
    ensures var r := Rhs(p, prm, rates, phiT, n0, n1);
            var r' := Rhs(p, prm, rates, phiT', n0', n1');
            && (forall x | x != XEE && x != XEI :: At(r, x) == At(r', x))
            && At(r, XEE) - At(r', XEE) == GammaE * GammaE * (prm.nTE * (phiT - phiT') + (n0 - n0'))
            && At(r, XEI) - At(r', XEI) == GammaE * GammaE * (prm.nTI * (phiT - phiT') + (n1 - n1'))
  {
  }

  /** Each synaptic pair is a damped second-order filter of its drive: the
      pair `(Phi, x)` is at rest exactly when `x` is 0 and `Phi` equals the
      drive, the firing rate times the connectivity plus the thalamic flux and
      the noise for the excitatory pairs; likewise `(phi_e, y_e)` with the
      pyramidal rate. */
  lemma RhsRest(p: Point, prm: Params, rates: Rates, phiT: real, n0: real, n1: real)
    ensures RhsAt(p, prm, rates, phiT, n0, n1, PhiEE) == 0.0 && RhsAt(p, prm, rates, phiT, n0, n1, XEE) == 0.0
        <==> p(XEE) == 0.0 && p(PhiEE) == NEE * rates.qe(prm.sigmaE, p(Ve)) + prm.nTE * phiT + n0
    ensures RhsAt(p, prm, rates, phiT, n0, n1, PhiEI) == 0.0 && RhsAt(p, prm, rates, phiT, n0, n1, XEI) == 0.0
        <==> p(XEI) == 0.0 && p(PhiEI) == NEI * rates.qe(prm.sigmaE, p(Ve)) + prm.nTI * phiT + n1
    ensures RhsAt(p, prm, rates, phiT, n0, n1, PhiIE) == 0.0 && RhsAt(p, prm, rates, phiT, n0, n1, XIE) == 0.0
        <==> p(XIE) == 0.0 && p(PhiIE) == NIE * rates.qi(p(Vi))
    ensures RhsAt(p, prm, rates, phiT, n0, n1, PhiII) == 0.0 && RhsAt(p, prm, rates, phiT, n0, n1, XII) == 0.0
        <==> p(XII) == 0.0 && p(PhiII) == NII * rates.qi(p(Vi))
    ensures RhsAt(p, prm, rates, phiT, n0, n1, PhiE) == 0.0 && RhsAt(p, prm, rates, phiT, n0, n1, YE) == 0.0
        <==> p(YE) == 0.0 && p(PhiE) == rates.qe(prm.sigmaE, p(Ve))
  {
    var qe := rates.qe(prm.sigmaE, p(Ve));
    var qi := rates.qi(p(Vi));
    FilterRest(p(PhiEE), p(XEE), RhsAt(p, prm, rates, phiT, n0, n1, PhiEE), RhsAt(p, prm, rates, phiT, n0, n1, XEE),
               GammaE, GammaE * GammaE, NEE * qe + prm.nTE * phiT + n0);
    FilterRest(p(PhiEI), p(XEI), RhsAt(p, prm, rates, phiT, n0, n1, PhiEI), RhsAt(p, prm, rates, phiT, n0, n1, XEI),
               GammaE, GammaE * GammaE, NEI * qe + prm.nTI * phiT + n1);
    FilterRest(p(PhiIE), p(XIE), RhsAt(p, prm, rates, phiT, n0, n1, PhiIE), RhsAt(p, prm, rates, phiT, n0, n1, XIE),
               GammaI, GammaI * GammaI, NIE * qi);
    FilterRest(p(PhiII), p(XII), RhsAt(p, prm, rates, phiT, n0, n1, PhiII), RhsAt(p, prm, rates, phiT, n0, n1, XII),
               GammaI, GammaI * GammaI, NII * qi);
    FilterRest(p(PhiE), p(YE), RhsAt(p, prm, rates, phiT, n0, n1, PhiE), RhsAt(p, prm, rates, phiT, n0, n1, YE),
               Nu, Nu * Nu, qe);
  }

  /** Scaled by the step width, the stage noise of `set_RK(n)` adds
      `gamma_e^2 h (B1[n-1] r[0] + B2[n-1] r[1])` to `x_ee` and the same of
      `r[2]`, `r[3]` to `x_ei`: the `1/h` of `noise_xRK` inside a `dt`-term
      leaves a noise of size `h = sqrt(dt)`. */
  lemma StageNoiseScaling(c: Column, n: int, rates: Rates, roots: Roots, phiT: real)
    requires 1 <= n <= 4 && |c.rand| >= 4 && ValidRoots(roots)
    ensures var d := Derivative(c, n, Equations(rates), roots, phiT);
            Dt * (At(d, XEE) - RhsAt(Inputs(c, n), c.prm, rates, phiT, 0.0, 0.0, XEE))
            == GammaE * GammaE * roots.h * (B1[n - 1] * c.rand[0] + B2[n - 1] * c.rand[1])
    ensures var d := Derivative(c, n, Equations(rates), roots, phiT);
            Dt * (At(d, XEI) - RhsAt(Inputs(c, n), c.prm, rates, phiT, 0.0, 0.0, XEI))
            == GammaE * GammaE * roots.h * (B1[n - 1] * c.rand[2] + B2[n - 1] * c.rand[3])
  {
    DerivativeNoise(c, n, rates, roots, phiT);
    NoiseXScaled(roots, n, c.rand[0], c.rand[1]);
    NoiseXScaled(roots, n, c.rand[2], c.rand[3]);
    ScaleBy(GammaE * GammaE, NoiseX(roots, n, c.rand[0], c.rand[1]));
    ScaleBy(GammaE * GammaE, NoiseX(roots, n, c.rand[2], c.rand[3]));
  }

  /** The stage derivative of `x_ee` (of `x_ei`) exceeds the noiseless
      right-hand side by `gamma_e^2` times the stage noise. */
  lemma DerivativeNoise(c: Column, n: int, rates: Rates, roots: Roots, phiT: real)
    requires 1 <= n <= 4 && |c.rand| >= 4 && PositiveRoots(roots)
    ensures var d := Derivative(c, n, Equations(rates), roots, phiT);
            At(d, XEE) - RhsAt(Inputs(c, n), c.prm, rates, phiT, 0.0, 0.0, XEE)
            == GammaE * GammaE * NoiseX(roots, n, c.rand[0], c.rand[1])
    ensures var d := Derivative(c, n, Equations(rates), roots, phiT);
            At(d, XEI) - RhsAt(Inputs(c, n), c.prm, rates, phiT, 0.0, 0.0, XEI)
            == GammaE * GammaE * NoiseX(roots, n, c.rand[2], c.rand[3])
  {
    var p := Inputs(c, n);
    EquationsAt(c, n, rates, roots, phiT);
    RhsAtNoise(p, c.prm, rates, phiT, NoiseX(roots, n, c.rand[0], c.rand[1]), NoiseX(roots, n, c.rand[2], c.rand[3]));
  }

  /** Scaling by the step width commutes with a constant factor. */
  lemma ScaleBy(k: real, u: real)
    ensures Dt * (k * u) == k * (Dt * u)
  {
  }

  /** The stage noise enters `x_ee` and `x_ei` with weight `gamma_e^2`. */
  lemma RhsAtNoise(p: Point, prm: Params, rates: Rates, phiT: real, n0: real, n1: real)
    ensures RhsAt(p, prm, rates, phiT, n0, n1, XEE) - RhsAt(p, prm, rates, phiT, 0.0, 0.0, XEE) == GammaE * GammaE * n0
    ensures RhsAt(p, prm, rates, phiT, n0, n1, XEI) - RhsAt(p, prm, rates, phiT, 0.0, 0.0, XEI) == GammaE * GammaE * n1
  {
  }

  /** The stage derivative of the column's own equations, component by
      component, with the stage noise of the current draws. */
  lemma EquationsAt(c: Column, n: int, rates: Rates, roots: Roots, phiT: real)
    requires 1 <= n <= 4 && |c.rand| >= 4 && PositiveRoots(roots)
    ensures forall x :: At(Derivative(c, n, Equations(rates), roots, phiT), x)
                     == RhsAt(Inputs(c, n), c.prm, rates, phiT,
                              NoiseX(roots, n, c.rand[0], c.rand[1]), NoiseX(roots, n, c.rand[2], c.rand[3]), x)
  {
  }

  /** `dt * noise_xRK(N, M)` is `h` times the tabulated combination of the
      two draws. */
  lemma NoiseXScaled(roots: Roots, n: int, d0: real, d1: real)
    requires 1 <= n <= 4 && ValidRoots(roots)
    ensures Dt * NoiseX(roots, n, d0, d1) == roots.h * (B1[n - 1] * d0 + B2[n - 1] * d1)
  {
    var u := B1[n - 1] * d0 + B2[n - 1] * d1;
    var h := roots.h;
    DtOverH(roots);
    assert NoiseX(roots, n, d0, d1) * h == u;
    assert Dt == h * h;
  }

  /** The stage derivative of `set_RK(n)`: the right-hand side at the stage
      inputs, with the stage noise computed from the current draws. */
  function Derivative(c: Column, n: int, f: Field, roots: Roots, phiT: real): Point
    requires 1 <= n <= 4 && |c.rand| >= 4 && PositiveRoots(roots)
  {
    f(Inputs(c, n), c.prm, phiT, NoiseX(roots, n, c.rand[0], c.rand[1]), NoiseX(roots, n, c.rand[2], c.rand[3]))
  }

  /** `set_RK(n)`, n in 1..4: every variable's slot n receives `Dt` times its
      derivative at the stage-n inputs; slot 0, the other slots, the draws and
      the parameters are unchanged. */
  function SetRK(c: Column, n: int, f: Field, roots: Roots, phiT: real): (r: Column)
    requires 1 <= n <= 4 && |c.rand| >= 4 && PositiveRoots(roots)
    ensures forall x :: SameExcept(Slot(r, x), Slot(c, x), n)
    ensures forall x :: Get(Slot(r, x), n) == Dt * At(Derivative(c, n, f, roots, phiT), x)
    ensures r.rand == c.rand && r.prm == c.prm
  {
    var d := Derivative(c, n, f, roots, phiT);
    c.(vars := x => IncrementWrite(Slot(c, x), n, At(d, x)))
  }

  /** The source assigns the slots one statement after another, and later
      statements re-read stage inputs; since stage n writes slot n and reads
      only slots 0 and n-1, the writes leave the stage-n inputs unchanged, so
      the sequential assignments equal the simultaneous update above. */
  lemma SetRKKeepsInputs(c: Column, n: int, f: Field, roots: Roots, phiT: real)
    requires 1 <= n <= 4 && |c.rand| >= 4 && PositiveRoots(roots)
    ensures forall x :: At(Inputs(SetRK(c, n, f, roots, phiT), n), x) == At(Inputs(c, n), x)
  {
    var r := SetRK(c, n, f, roots, phiT);
    forall x ensures StageInput(Slot(r, x), n) == StageInput(Slot(c, x), n) {
      StageInputReadsOnlyPrior(Slot(r, x), Slot(c, x), n);
    }
  }

  /** The input of the next stage is the Euler predictor: slot 0 plus the
      next stage weight times `Dt` times this stage's derivative. */
  lemma SetRKPredicts(c: Column, n: int, f: Field, roots: Roots, phiT: real)
    requires 1 <= n <= 3 && |c.rand| >= 4 && PositiveRoots(roots)
    ensures var r := SetRK(c, n, f, roots, phiT);
            forall x :: At(Inputs(r, n + 1), x)
                     == Slot(c, x).s0 + StageWeight(n + 1) * Dt * At(Derivative(c, n, f, roots, phiT), x)
  {
  }

  /** The final noise of `add_RK`: `gamma_e^2 h r[0]` on `x_ee`,
      `gamma_e^2 h r[2]` on `x_ei`, nothing on any other variable. */
  function FinalNoise(c: Column, roots: Roots, x: Var): real
    requires |c.rand| >= 4
  {
    if x == XEE then GammaE * GammaE * roots.h * c.rand[0]
    else if x == XEI then GammaE * GammaE * roots.h * c.rand[2]
    else 0.0
  }

  /** The final noise reads nothing of the column but draws 0 and 2. */
  lemma FinalNoiseReadsDraws(c: Column, d: Column, roots: Roots, x: Var)
    requires |c.rand| >= 4 && |d.rand| >= 4
    requires c.rand[0] == d.rand[0] && c.rand[2] == d.rand[2]
    ensures FinalNoise(c, roots, x) == FinalNoise(d, roots, x)
  {
  }

  /** Over one step the noise of `x_ee` is `h gamma_e^2` times a fixed
      combination of draws 0 and 1: the stage noises, scaled by `dt` and
      weighted 1, 2, 2, 1 over 6 by the combine, plus the final noise of
      draw 0. Likewise `x_ei` with draws 2 and 3. The noise of a step thus
      scales with `h = sqrt(dt)`, not with `dt`. */
  lemma StepNoise(c: Column, roots: Roots)
    requires |c.rand| >= 4 && ValidRoots(roots)
    ensures var w1 := (2.0 * B1[1] + 2.0 * B1[2] + B1[3]) / 6.0;
            var w2 := (2.0 * B2[1] + 2.0 * B2[2] + B2[3]) / 6.0;
            && WeightedStageNoise(roots, c.rand[0], c.rand[1]) + FinalNoise(c, roots, XEE)
               == GammaE * GammaE * roots.h * ((1.0 + w1) * c.rand[0] + w2 * c.rand[1])
            && WeightedStageNoise(roots, c.rand[2], c.rand[3]) + FinalNoise(c, roots, XEI)
               == GammaE * GammaE * roots.h * ((1.0 + w1) * c.rand[2] + w2 * c.rand[3])
  {
    WeightedStageNoiseScaled(roots, c.rand[0], c.rand[1]);
    WeightedStageNoiseScaled(roots, c.rand[2], c.rand[3]);
  }

  /** The stage noise of one excitatory variable over the four stages, as
      the increments carry it into the combine: `dt gamma_e^2 noise_xRK(N)`
      with weights 1, 2, 2, 1 over 6. */
  function WeightedStageNoise(roots: Roots, d0: real, d1: real): real
    requires PositiveRoots(roots)
  {
    Dt * GammaE * GammaE * (NoiseX(roots, 1, d0, d1) + 2.0 * NoiseX(roots, 2, d0, d1)
                            + 2.0 * NoiseX(roots, 3, d0, d1) + NoiseX(roots, 4, d0, d1)) / 6.0
  }

  /** The weighted stage noise is `h gamma_e^2` times the weighted tables. */
  lemma WeightedStageNoiseScaled(roots: Roots, d0: real, d1: real)
    requires ValidRoots(roots)
    ensures WeightedStageNoise(roots, d0, d1)
         == GammaE * GammaE * roots.h * ((2.0 * B1[1] + 2.0 * B1[2] + B1[3]) / 6.0 * d0
                                         + (2.0 * B2[1] + 2.0 * B2[2] + B2[3]) / 6.0 * d1)
  {
    NoiseXScaled(roots, 1, d0, d1);
    NoiseXScaled(roots, 2, d0, d1);
    NoiseXScaled(roots, 3, d0, d1);
    NoiseXScaled(roots, 4, d0, d1);
    var g := GammaE * GammaE;
    var h := roots.h;
    var u1, u2, u3, u4 := Dt * NoiseX(roots, 1, d0, d1), Dt * NoiseX(roots, 2, d0, d1), Dt * NoiseX(roots, 3, d0, d1), Dt * NoiseX(roots, 4, d0, d1);
    assert WeightedStageNoise(roots, d0, d1) == g * (u1 + 2.0 * u2 + 2.0 * u3 + u4) / 6.0;
  }

  /** `add_RK`: each variable's slot 0 advances by the weighted increments,
      `x_ee` and `x_ei` also by their final noise from the draws of this step,
      and only then are the draws replaced by `next`. */
  function AddRK(c: Column, roots: Roots, next: seq<real>): (r: Column)
    requires |c.rand| >= 4 && |next| == |c.rand|
    ensures forall x :: SameExcept(Slot(r, x), Slot(c, x), 0)
    ensures forall x :: Slot(r, x).s0 == IncrementCombine(Slot(c, x)).s0 + FinalNoise(c, roots, x)
    ensures r.rand == next && r.prm == c.prm
  {
    c.(vars := x => Combined(c, roots, x), rand := next)
  }

  /** The combine of one variable: `x_ee` and `x_ei` also receive their
      final noise. */
  function Combined(c: Column, roots: Roots, x: Var): (r: Slots)
    requires |c.rand| >= 4
    ensures SameExcept(r, Slot(c, x), 0)
    ensures r.s0 == IncrementCombine(Slot(c, x)).s0 + FinalNoise(c, roots, x)
  {
    if x == XEE || x == XEI then AddToValue(IncrementCombine(Slot(c, x)), FinalNoise(c, roots, x))
    else IncrementCombine(Slot(c, x))
  }

  /** The column as constructed: `Ve = E_L_e`, `Vi = E_L_i`, `Na = Na_eq`,
      every other variable 0, every stage slot 0; `draws` is the first set of
      Gaussian draws. */
  function Initial(prm: Params, draws: seq<real>): (c: Column)
    requires |draws| >= 4
    ensures forall x, k | 1 <= k <= 4 :: Get(Slot(c, x), k) == 0.0
    ensures forall x | x !in {Ve, Vi, Na} :: Slot(c, x).s0 == 0.0
    ensures Slot(c, Ve).s0 == ELE && Slot(c, Vi).s0 == ELI && Slot(c, Na).s0 == NaEq
    ensures c.rand == draws && c.prm == prm
  {
    Column(x => Init(Rest(x)), draws, prm)
  }

  /** The initial value of each variable. */
  function Rest(x: Var): real {
    match x
    case Ve => ELE
    case Vi => ELI
    case Na => NaEq
    case _ => 0.0
  }

  /** The first stage derivative of the constructed column, for any rates,
      any thalamic flux and any draws: the synaptic and flux variables and
      `Vi` are at rest, and `Ve` feels only `I_KNa`. The stage-1 noise is 0
      whatever the draws. */
  lemma InitialAtRest(prm: Params, rates: Rates, roots: Roots, draws: seq<real>, phiT: real)
    requires |draws| >= 4 && PositiveRoots(roots)
    ensures var d := Derivative(Initial(prm, draws), 1, Equations(rates), roots, phiT);
            && At(d, Vi) == 0.0
            && At(d, PhiEE) == At(d, PhiEI) == At(d, PhiIE) == At(d, PhiII) == At(d, PhiE) == 0.0
            && At(d, Ve) == -IKNa(Inputs(Initial(prm, draws), 1), prm, rates)
  {
    var c := Initial(prm, draws);
    NoiseXLinear(roots, 1, draws[0], draws[1], 0.0, 0.0, 1.0, 0.0);
    NoiseXLinear(roots, 1, draws[2], draws[3], 0.0, 0.0, 1.0, 0.0);
    EquationsAt(c, 1, rates, roots, phiT);
    InitialInputs(prm, draws);
  }

  /** The second-order variables of the constructed column feel only their
      drives at the first stage: the firing rates at the resting voltages
      and the thalamic flux; `Na` feels the pyramidal rate, the pump being
      at its equilibrium. */
  lemma InitialDrive(prm: Params, rates: Rates, roots: Roots, draws: seq<real>, phiT: real)
    requires |draws| >= 4 && PositiveRoots(roots)
    ensures var d := Derivative(Initial(prm, draws), 1, Equations(rates), roots, phiT);
            var qe := rates.qe(prm.sigmaE, ELE);
            var qi := rates.qi(ELI);
            && At(d, Na) == AlphaNa * qe / TauNa
            && At(d, XEE) == GammaE * GammaE * (NEE * qe + prm.nTE * phiT)
            && At(d, XEI) == GammaE * GammaE * (NEI * qe + prm.nTI * phiT)
            && At(d, XIE) == GammaI * GammaI * NIE * qi
            && At(d, XII) == GammaI * GammaI * NII * qi
            && At(d, YE) == Nu * Nu * qe
  {
    var c := Initial(prm, draws);
    NoiseXLinear(roots, 1, draws[0], draws[1], 0.0, 0.0, 1.0, 0.0);
    NoiseXLinear(roots, 1, draws[2], draws[3], 0.0, 0.0, 1.0, 0.0);
    EquationsAt(c, 1, rates, roots, phiT);
    InitialInputs(prm, draws);
    RestDrive(Inputs(c, 1), prm, rates, phiT);
  }

  /** The right-hand side at the resting values, without noise. */
  lemma RestDrive(p: Point, prm: Params, rates: Rates, phiT: real)
    requires forall x :: At(p, x) == Rest(x)
    ensures var qe := rates.qe(prm.sigmaE, ELE);
            var qi := rates.qi(ELI);
            && RhsAt(p, prm, rates, phiT, 0.0, 0.0, Na) == AlphaNa * qe / TauNa
            && RhsAt(p, prm, rates, phiT, 0.0, 0.0, XEE) == GammaE * GammaE * (NEE * qe + prm.nTE * phiT)
            && RhsAt(p, prm, rates, phiT, 0.0, 0.0, XEI) == GammaE * GammaE * (NEI * qe + prm.nTI * phiT)
            && RhsAt(p, prm, rates, phiT, 0.0, 0.0, XIE) == GammaI * GammaI * NIE * qi
            && RhsAt(p, prm, rates, phiT, 0.0, 0.0, XII) == GammaI * GammaI * NII * qi
            && RhsAt(p, prm, rates, phiT, 0.0, 0.0, YE) == Nu * Nu * qe
  {
    var qe := rates.qe(prm.sigmaE, ELE);
    assert At(p, Ve) == ELE && At(p, Vi) == ELI && At(p, Na) == NaEq;
    assert At(p, PhiEE) == 0.0 && At(p, PhiEI) == 0.0 && At(p, PhiIE) == 0.0 && At(p, PhiII) == 0.0 && At(p, PhiE) == 0.0;
    assert At(p, XEE) == 0.0 && At(p, XEI) == 0.0 && At(p, XIE) == 0.0 && At(p, XII) == 0.0 && At(p, YE) == 0.0;
    assert RhsAt(p, prm, rates, phiT, 0.0, 0.0, XEE) == GammaE * GammaE * (NEE * qe + prm.nTE * phiT + 0.0 - 0.0) - 2.0 * GammaE * 0.0;
    assert RhsAt(p, prm, rates, phiT, 0.0, 0.0, XEI) == GammaE * GammaE * (NEI * qe + prm.nTI * phiT + 0.0 - 0.0) - 2.0 * GammaE * 0.0;
  }

  /** The stage-1 inputs of the constructed column are its resting values. */
  lemma InitialInputs(prm: Params, draws: seq<real>)
    requires |draws| >= 4
    ensures forall x :: At(Inputs(Initial(prm, draws), 1), x) == Rest(x)
  {
  }
}
