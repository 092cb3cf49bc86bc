/** The thalamic column (`Thalamic_Column`): seventeen five-slot variables,
    the linear and rational parts of its right-hand side, the full-value stage
    `set_RK(N)` for N in 0..3, the combine `add_RK`, `set_input`, `P_h` and
    `act_h`. Firing rates, gating functions and time constants are supplied in
    a `Kinetics` record, together with the two synaptic conductances
    `g_AMPA` and `g_GABA` that the column's own declarations do not provide.

    Names follow the implementation file, which differs from the header:
    `y_et, y_er, x_et, x_er` for the header's `y_tt, y_tr, x_tt, x_tr`,
    `N_pt, N_pr` for `N_et, N_er`, and `gamma_g` for `gamma_i`. */
module Thalamus {
  import opened Settings
  import opened CArith
  import opened Slots
  import opened Rk

  /** The dynamical variables, in declaration order. */
  datatype Var = Vt | Vr | Ca | YEt | YEr | YRt | YRr | Y | XEt | XEr | XRt | XRr | X | HTt | HTr | Mh | Mh2

  /** The state of one column: a five-slot vector per variable, the draws of
      the current step, the stimulation input and the parameters. */
  datatype Column = Column(vars: Var -> Slots, rand: seq<real>, input: real, prm: Params)

  /** One real per variable: the stage inputs, or the right-hand side. */
  type Point = Var -> real

  /** The parameters the simulation constructor may override. */
  datatype Params = Params(gH: real, gLK: real, nEt: real, nEr: real)

  /** The transcendental parts of the right-hand side, each a function of a
      membrane voltage, and the two synaptic conductances. */
  datatype Kinetics = Kinetics(
    qt: real -> real, qr: real -> real,
    mInfTt: real -> real, mInfTr: real -> real,
    hInfTt: real -> real, hInfTr: real -> real,
    tauHTt: real -> real, tauHTr: real -> real,
    mInfH: real -> real, tauMH: real -> real,
    gAmpa: real, gGaba: real)

  // Constants of the header that the right-hand side uses.
  const TauT: real := 20.0
  const TauR: real := 20.0
  const GammaE: real := 0.07
  const GammaG: real := 0.1
  const Nu: real := 0.12
  const GL: real := 1.0
  const GTt: real := 3.0
  const GTr: real := 2.3
  const EAmpa: real := 0.0
  const EGaba: real := -70.0
  const ELT: real := -70.0
  const ELR: real := -70.0
  const EK: real := -100.0
  const ECa: real := 120.0
  const EH: real := -40.0
  const AlphaCa: real := -0.0000518
  const TauCa: real := 10.0
  const Ca0: real := 0.00024
  const K1: real := 25000000.0
  const K2: real := 0.0004
  const K3: real := 0.1
  const K4: real := 0.001
  const GInc: real := 2.0
  const NTr: real := 3.0
  const NRt: real := 5.0
  const NRr: real := 19.0

  /** The header defaults of the overridable parameters. */
  const Defaults: Params := Params(0.051, 0.02, 2.6, 2.6)

  /** The simulation constructor: `g_h = Param[0]`, `g_LK = Param[1]`,
      `N_et = Con[0]`, `N_er = Con[1]`. */
  function FromArrays(param: seq<real>, con: seq<real>): (p: Params)
    requires |param| >= 2 && |con| >= 2
  {
    Params(param[0], param[1], con[0], con[1])
  }

  /** The constructor reads exactly `param[0..2]` and `con[0..2]`. */
  lemma FromArraysReads(param: seq<real>, con: seq<real>, param': seq<real>, con': seq<real>)
    requires |param| >= 2 && |con| >= 2 && |param'| >= 2 && |con'| >= 2
    ensures FromArrays(param, con) == FromArrays(param', con')
        <==> param[..2] == param'[..2] && con[..2] == con'[..2]
  {
    if param[..2] == param'[..2] && con[..2] == con'[..2] {
      assert param[0] == param[..2][0] && param[1] == param[..2][1];
      assert param'[0] == param'[..2][0] && param'[1] == param'[..2][1];
      assert con[0] == con[..2][0] && con[1] == con[..2][1];
      assert con'[0] == con'[..2][0] && con'[1] == con'[..2][1];
    }
    if FromArrays(param, con) == FromArrays(param', con') {
      assert param[..2] == [param[0], param[1]];
      assert param'[..2] == [param'[0], param'[1]];
      assert con[..2] == [con[0], con[1]];
      assert con'[..2] == [con'[0], con'[1]];
    }
  }

  /** The variable `v` of column `t`. */
  function Slot(t: Column, v: Var): Slots {
    t.vars(v)
  }

  /** The component `v` of a point. */
  function At(p: Point, v: Var): real {
    p(v)
  }

  /** The stage-`n` inputs: the thalamus reads slot n of every variable as it
      stands (`Vt[N]`, `Ca[N]`, ...), without reconstruction. */
  function Inputs(t: Column, n: int): (p: Point)
    requires 0 <= n <= 4
    ensures forall v :: At(p, v) == Get(Slot(t, v), n)
  {
    v => Get(Slot(t, v), n)
  }

  // Currents at the stage inputs.

  /** `I_et`, as written with `g_AMPA`. */
  function Iet(p: Point, kin: Kinetics): (r: real)
    ensures p(YEt) == 0.0 || p(Vt) == EAmpa ==> r == 0.0
  {
    kin.gAmpa * p(YEt) * (p(Vt) - EAmpa)
  }

  /** `I_gt`, as written with `g_AMPA` and the GABA reversal potential. */
  function Igt(p: Point, kin: Kinetics): (r: real)
    ensures p(YRt) == 0.0 || p(Vt) == EGaba ==> r == 0.0
  {
    kin.gAmpa * p(YRt) * (p(Vt) - EGaba)
  }

  /** `I_er`, as written with `g_GABA` and the AMPA reversal potential. */
  function Ier(p: Point, kin: Kinetics): (r: real)
    ensures p(YEr) == 0.0 || p(Vr) == EAmpa ==> r == 0.0
  {
    kin.gGaba * p(YEr) * (p(Vr) - EAmpa)
  }

  /** `I_gr`. */
  function Igr(p: Point, kin: Kinetics): (r: real)
    ensures p(YRr) == 0.0 || p(Vr) == EGaba ==> r == 0.0
  {
    kin.gGaba * p(YRr) * (p(Vr) - EGaba)
  }

  /** `I_L_t`: relay leak. */
  function ILt(p: Point): (r: real)
    ensures r == 0.0 <==> p(Vt) == ELT
  {
    GL * (p(Vt) - ELT)
  }

  /** `I_L_r`: reticular leak. */
  function ILr(p: Point): (r: real)
    ensures r == 0.0 <==> p(Vr) == ELR
  {
    GL * (p(Vr) - ELR)
  }

  /** `I_LK_t`: relay potassium leak. */
  function ILKt(p: Point, prm: Params): (r: real)
    ensures p(Vt) == EK ==> r == 0.0
    ensures prm.gLK > 0.0 ==> (r == 0.0 <==> p(Vt) == EK)
  {
    prm.gLK * (p(Vt) - EK)
  }

  /** `I_LK_r`: reticular potassium leak. */
  function ILKr(p: Point, prm: Params): (r: real)
    ensures p(Vr) == EK ==> r == 0.0
    ensures prm.gLK > 0.0 ==> (r == 0.0 <==> p(Vr) == EK)
  {
    prm.gLK * (p(Vr) - EK)
  }

  /** `I_T_t`: relay T-type calcium current. */
  function ITt(p: Point, kin: Kinetics): (r: real)
    ensures p(HTt) == 0.0 || p(Vt) == ECa ==> r == 0.0
  {
    GTt * kin.mInfTt(p(Vt)) * kin.mInfTt(p(Vt)) * p(HTt) * (p(Vt) - ECa)
  }

  /** `I_T_r`: reticular T-type calcium current. */
  function ITr(p: Point, kin: Kinetics): (r: real)
    ensures p(HTr) == 0.0 || p(Vr) == ECa ==> r == 0.0
  {
    GTr * kin.mInfTr(p(Vr)) * kin.mInfTr(p(Vr)) * p(HTr) * (p(Vr) - ECa)
  }

  /** `I_h`: the h current, driven by the free and the bound activation. */
  function Ih(p: Point, prm: Params): (r: real)
    ensures p(Vt) == EH ==> r == 0.0
    ensures p(Mh) + GInc * p(Mh2) == 0.0 ==> r == 0.0
  {
    prm.gH * (p(Mh) + GInc * p(Mh2)) * (p(Vt) - EH)
  }

  /** `P_h`: the fraction of messenger protein bound by calcium,
      `k1 Ca^3 / (k1 Ca^3 + k2)`. */
  function PH(ca: real): (r: real)
    ensures ca == 0.0 ==> r == 0.0
    ensures ca >= 0.0 ==> 0.0 <= r < 1.0
  {
    var c3 := ca * ca * ca;
    assert ca >= 0.0 ==> c3 >= 0.0 by {
      if ca >= 0.0 {
        assert ca * ca >= 0.0;
      }
    }
    var num := K1 * c3;
    var den := K1 * c3 + K2;
    assert ca >= 0.0 ==> 0.0 <= num < den;
    var r := Ratio(num, den);
    assert ca >= 0.0 ==> 0.0 <= r < 1.0 by {
      if ca >= 0.0 {
        RatioBelowOne(num, den);
      }
    }
    r
  }

  /** A fraction with numerator in `[0, den)` lies in `[0, 1)`. */
  lemma RatioBelowOne(num: real, den: real)
    requires 0.0 <= num < den
    ensures 0.0 <= Ratio(num, den) < 1.0
  {
    var r := Ratio(num, den);
    CancelPositive(0.0, r, den);
    CancelPositive(r, 1.0, den);
  }

  /** `act_h`: the total h activation, free plus `g_inc` times bound. */
  function ActH(t: Column): (r: real)
    ensures Ih(Inputs(t, 0), t.prm) == t.prm.gH * r * (Slot(t, Vt).s0 - EH)
  {
    Slot(t, Mh).s0 + GInc * Slot(t, Mh2).s0
  }

  /** The right-hand side at the stage inputs `p`, given the cortical flux
      `phiC` the thalamus couples to. */
  function Rhs(p: Point, prm: Params, kin: Kinetics, phiC: real): Point {
    (v: Var) => RhsAt(p, prm, kin, phiC, v)
  }

  /** Component `v` of the right-hand side. */
  function RhsAt(p: Point, prm: Params, kin: Kinetics, phiC: real, v: Var): real {
    var qt := kin.qt(p(Vt));
    var qr := kin.qr(p(Vr));
    var binding := K3 * PH(p(Ca)) * p(Mh) - K4 * p(Mh2);
    match v
      case Vt => -(ILt(p) + Iet(p, kin) + Igt(p, kin)) / TauT - (ILKt(p, prm) + ITt(p, kin) + Ih(p, prm))
      case Vr => -(ILr(p) + Ier(p, kin) + Igr(p, kin)) / TauR - (ILKr(p, prm) + ITr(p, kin))
      case Ca => AlphaCa * ITt(p, kin) - (p(Ca) - Ca0) / TauCa
      case YEt => p(XEt)
      case YEr => p(XEr)
      case YRt => p(XRt)
      case YRr => p(XRr)
      case Y => p(X)
      case XEt => GammaE * GammaE * (prm.nEt * phiC - p(YEt)) - 2.0 * GammaE * p(XEt)
      case XEr => GammaE * GammaE * (NTr * qt + prm.nEr * phiC - p(YEr)) - 2.0 * GammaE * p(XEr)
      case XRt => GammaG * GammaG * (NRt * qr - p(YRt)) - 2.0 * GammaG * p(XRt)
      case XRr => GammaG * GammaG * (NRr * qr - p(YRr)) - 2.0 * GammaG * p(XRr)
      case X => Nu * Nu * (qt - p(Y)) - 2.0 * Nu * p(X)
      case HTt => Ratio(kin.hInfTt(p(Vt)) - p(HTt), kin.tauHTt(p(Vt)))
      case HTr => Ratio(kin.hInfTr(p(Vr)) - p(HTr), kin.tauHTr(p(Vr)))
      case Mh => Ratio(kin.mInfH(p(Vt)) * (1.0 - p(Mh2)) - p(Mh), kin.tauMH(p(Vt))) - binding
      case Mh2 => binding
  }


  /** A right-hand side as a stage uses it: the derivative at the stage
      inputs, given the parameters and the cortical flux. The driver is
      stated for any such field; the column's own is `Equations`. */
  type Field = (Point, Params, real) -> Point

  /** The column's right-hand side with the supplied kinetics. */
  function Equations(kin: Kinetics): Field {
    (p: Point, prm: Params, phiC: real) => Rhs(p, prm, kin, phiC)
  }

  /** The calcium binding term moves activation between the free and the
      bound h-channel pool: it cancels in the sum of their derivatives. */
  lemma BindingCancels(p: Point, prm: Params, kin: Kinetics, phiC: real)
    ensures var d := Rhs(p, prm, kin, phiC);
            d(Mh) + d(Mh2) == Ratio(kin.mInfH(p(Vt)) * (1.0 - p(Mh2)) - p(Mh), kin.tauMH(p(Vt)))
    ensures var d := Rhs(p, prm, kin, phiC);
            p(Ca) == 0.0 ==> d(Mh2) == -K4 * p(Mh2)
  {
    BindingTerms(p, prm, kin, phiC);
  }

  /** The `m_h` and `m_h2` components of the right-hand side, with the
      binding term named. */
  lemma BindingTerms(p: Point, prm: Params, kin: Kinetics, phiC: real)
    ensures RhsAt(p, prm, kin, phiC, Mh2) == K3 * PH(p(Ca)) * p(Mh) - K4 * p(Mh2)
    ensures RhsAt(p, prm, kin, phiC, Mh)
         == Ratio(kin.mInfH(p(Vt)) * (1.0 - p(Mh2)) - p(Mh), kin.tauMH(p(Vt))) - (K3 * PH(p(Ca)) * p(Mh) - K4 * p(Mh2))
  {
  }

  /** The cortical flux enters only `x_et` and `x_er`, with weights
      `gamma_e^2 N_et` and `gamma_e^2 N_er`. */
  lemma RhsDrive(p: Point, prm: Params, kin: Kinetics, phiC: real, phiC': real)
    ensures var r := Rhs(p, prm, kin, phiC);
            var r' := Rhs(p, prm, kin, phiC');
            && (forall v | v != XEt && v != XEr :: At(r, v) == At(r', v))
            && At(r, XEt) - At(r', XEt) == GammaE * GammaE * prm.nEt * (phiC - phiC')
            && At(r, XEr) - At(r', XEr) == GammaE * GammaE * prm.nEr * (phiC - phiC')
  {
    forall v | v != XEt && v != XEr ensures RhsAt(p, prm, kin, phiC, v) == RhsAt(p, prm, kin, phiC', v) {
      RhsAtUndriven(p, prm, kin, phiC, phiC', v);
    }
    RhsAtDriven(p, prm, kin, phiC, phiC');
  }

  /** `x_et` and `x_er` read the cortical flux with weights `gamma_e^2 N_et`
      and `gamma_e^2 N_er`. */
  lemma RhsAtDriven(p: Point, prm: Params, kin: Kinetics, phiC: real, phiC': real)
    ensures RhsAt(p, prm, kin, phiC, XEt) - RhsAt(p, prm, kin, phiC', XEt) == GammaE * GammaE * prm.nEt * (phiC - phiC')
    ensures RhsAt(p, prm, kin, phiC, XEr) - RhsAt(p, prm, kin, phiC', XEr) == GammaE * GammaE * prm.nEr * (phiC - phiC')
  {
  }

  /** A component other than `x_et` and `x_er` does not read the cortical
      flux. */
  lemma RhsAtUndriven(p: Point, prm: Params, kin: Kinetics, phiC: real, phiC': real, v: Var)
    requires v != XEt && v != XEr
    ensures RhsAt(p, prm, kin, phiC, v) == RhsAt(p, prm, kin, phiC', v)
  {
  }

  /** Each synaptic pair is a damped second-order filter of its drive: the
      pair `(y, x)` is at rest exactly when `x` is 0 and `y` equals the
      drive, the firing rate times the connectivity plus the cortical flux
      for the pairs the cortex reaches. Without T-current calcium relaxes to
      `Ca_0`. */
  lemma RhsRest(p: Point, prm: Params, kin: Kinetics, phiC: real)
    ensures RhsAt(p, prm, kin, phiC, YEt) == 0.0 && RhsAt(p, prm, kin, phiC, XEt) == 0.0
        <==> p(XEt) == 0.0 && p(YEt) == prm.nEt * phiC
    ensures RhsAt(p, prm, kin, phiC, YEr) == 0.0 && RhsAt(p, prm, kin, phiC, XEr) == 0.0
        <==> p(XEr) == 0.0 && p(YEr) == NTr * kin.qt(p(Vt)) + prm.nEr * phiC
    ensures RhsAt(p, prm, kin, phiC, YRt) == 0.0 && RhsAt(p, prm, kin, phiC, XRt) == 0.0
        <==> p(XRt) == 0.0 && p(YRt) == NRt * kin.qr(p(Vr))
    ensures RhsAt(p, prm, kin, phiC, YRr) == 0.0 && RhsAt(p, prm, kin, phiC, XRr) == 0.0
        <==> p(XRr) == 0.0 && p(YRr) == NRr * kin.qr(p(Vr))
    ensures RhsAt(p, prm, kin, phiC, Y) == 0.0 && RhsAt(p, prm, kin, phiC, X) == 0.0
        <==> p(X) == 0.0 && p(Y) == kin.qt(p(Vt))
    ensures p(HTt) == 0.0 ==> (RhsAt(p, prm, kin, phiC, Ca) == 0.0 <==> p(Ca) == Ca0)
  {
    var qt := kin.qt(p(Vt));
    var qr := kin.qr(p(Vr));
    FilterRest(p(YEt), p(XEt), RhsAt(p, prm, kin, phiC, YEt), RhsAt(p, prm, kin, phiC, XEt), GammaE, GammaE * GammaE, prm.nEt * phiC);
    FilterRest(p(YEr), p(XEr), RhsAt(p, prm, kin, phiC, YEr), RhsAt(p, prm, kin, phiC, XEr), GammaE, GammaE * GammaE, NTr * qt + prm.nEr * phiC);
    FilterRest(p(YRt), p(XRt), RhsAt(p, prm, kin, phiC, YRt), RhsAt(p, prm, kin, phiC, XRt), GammaG, GammaG * GammaG, NRt * qr);
    FilterRest(p(YRr), p(XRr), RhsAt(p, prm, kin, phiC, YRr), RhsAt(p, prm, kin, phiC, XRr), GammaG, GammaG * GammaG, NRr * qr);
    FilterRest(p(Y), p(X), RhsAt(p, prm, kin, phiC, Y), RhsAt(p, prm, kin, phiC, X), Nu, Nu * Nu, qt);
  }

  /** `noise_xRK(N, M)` of the thalamus as a function of the draws
      `r[2M]`, `r[2M+1]`. */
  function NoiseX(roots: Roots, n: int, d0: real, d1: real): real
    requires 0 <= n <= 3 && PositiveRoots(roots)
  {
    GammaE * GammaE * (d0 + d1 / roots.sqrt3) * B[n]
  }

  /** `noise_aRK(M)` as a function of the draws `r[2M]`, `r[2M+1]`. */
  function NoiseA(roots: Roots, d0: real, d1: real): real
    requires PositiveRoots(roots)
  {
    GammaE * GammaE * (d0 - d1 * roots.sqrt3) / 4.0
  }

  /** Both noise terms are linear in the draws; the stage noise vanishes at
      stages 2 and 3, where `B` is 0, whatever the draws. */
  lemma NoiseLinear(roots: Roots, n: int, d0: real, d1: real, e0: real, e1: real, a: real, b: real)
    requires 0 <= n <= 3 && PositiveRoots(roots)
    ensures NoiseX(roots, n, a * d0 + b * e0, a * d1 + b * e1)
         == a * NoiseX(roots, n, d0, d1) + b * NoiseX(roots, n, e0, e1)
    ensures NoiseA(roots, a * d0 + b * e0, a * d1 + b * e1)
         == a * NoiseA(roots, d0, d1) + b * NoiseA(roots, e0, e1)
    ensures n >= 2 ==> NoiseX(roots, n, d0, d1) == 0.0
  {
    var s := roots.sqrt3;
    var u := d1 / s;
    var w := e1 / s;
    assert u * s == d1 && w * s == e1;
    assert (a * u + b * w) * s == a * d1 + b * e1;
    assert (a * d1 + b * e1) / s == a * u + b * w;
    var g := GammaE * GammaE * B[n];
    assert g * (a * d0 + b * e0 + (a * u + b * w)) == a * (g * (d0 + u)) + b * (g * (e0 + w));
  }

  /** Over one step the noise of `x_et` adds up to exactly `gamma_e^2 r[0]`:
      the stage noises enter the full-value combine with weights 2, 4, 2, 1
      over 6, and together with `noise_aRK(0)` the second draw cancels. */
  lemma NoiseTotal(roots: Roots, d0: real, d1: real)
    requires ValidRoots(roots)
    ensures (2.0 * NoiseX(roots, 0, d0, d1) + 4.0 * NoiseX(roots, 1, d0, d1)
             + 2.0 * NoiseX(roots, 2, d0, d1) + NoiseX(roots, 3, d0, d1)) / 6.0
            + NoiseA(roots, d0, d1) == GammaE * GammaE * d0
  {
    var s := roots.sqrt3;
    var u := d1 / s;
    assert d1 == u * s;
    assert s * s == 3.0;
    assert d1 * s == u * (s * s) == 3.0 * u;
    var g := GammaE * GammaE;
    assert NoiseX(roots, 0, d0, d1) == g * (d0 + u) * 0.75;
    assert NoiseX(roots, 1, d0, d1) == g * (d0 + u) * 0.75;
    assert NoiseX(roots, 2, d0, d1) == 0.0 && NoiseX(roots, 3, d0, d1) == 0.0;
    assert NoiseA(roots, d0, d1) == g * (d0 - 3.0 * u) / 4.0;
  }

  /** The stage noise that variable `v` receives at stage `n`: only `x_et`. */
  function StageNoise(t: Column, roots: Roots, n: int, v: Var): real
    requires 0 <= n <= 3 && |t.rand| >= 2 && PositiveRoots(roots)
  {
    if v == XEt then NoiseX(roots, n, t.rand[0], t.rand[1]) else 0.0
  }

  /** The stage noise reads nothing of the column but the first two draws. */
  lemma StageNoiseReadsDraws(t: Column, u: Column, roots: Roots, n: int, v: Var)
    requires 0 <= n <= 3 && |t.rand| >= 2 && |u.rand| >= 2 && PositiveRoots(roots)
    requires t.rand[0] == u.rand[0] && t.rand[1] == u.rand[1]
    ensures StageNoise(t, roots, n, v) == StageNoise(u, roots, n, v)
  {
  }

  /** The stage derivative of `set_RK(n)`: the right-hand side at slot n. */
  function Derivative(t: Column, n: int, f: Field, phiC: real): Point
    requires 0 <= n <= 3
  {
    f(Inputs(t, n), t.prm, phiC)
  }

  /** `set_RK(n)`, n in 0..3: every variable's slot n+1 receives slot 0 plus
      `A[n] * Dt` times its derivative at slot n, `x_et` also its stage noise;
      slot 0, every other slot, the draws, the input and the parameters are
      unchanged. */
  function SetRK(t: Column, n: int, f: Field, roots: Roots, phiC: real): (r: Column)
    requires 0 <= n <= 3 && |t.rand| >= 2 && PositiveRoots(roots)
    ensures forall v :: SameExcept(Slot(r, v), Slot(t, v), n + 1)
    ensures forall v :: Get(Slot(r, v), n + 1)
                     == Slot(t, v).s0 + A[n] * Dt * At(Derivative(t, n, f, phiC), v) + StageNoise(t, roots, n, v)
    ensures r.rand == t.rand && r.input == t.input && r.prm == t.prm
  {
    var d := Derivative(t, n, f, phiC);
    t.(vars := v => FullValueWrite(Slot(t, v), n, At(d, v), StageNoise(t, roots, n, v)))
  }

  /** The source assigns the slots one after another while later statements
      read slot n; stage n writes only slot n+1, so the sequential assignments
      equal the simultaneous update above. */
  lemma SetRKKeepsInputs(t: Column, n: int, f: Field, roots: Roots, phiC: real)
    requires 0 <= n <= 3 && |t.rand| >= 2 && PositiveRoots(roots)
    ensures forall v :: At(Inputs(SetRK(t, n, f, roots, phiC), n), v) == At(Inputs(t, n), v)
  {
  }

  /** `add_RK`: each variable's slot 0 becomes the full-value combine, `x_et`
      plus `noise_aRK(0)` from this step's draws; then every draw is replaced
      by the next raw draw plus the current input. */
  function AddRK(t: Column, roots: Roots, next: seq<real>): (r: Column)
    requires |t.rand| >= 2 && |next| == |t.rand| && PositiveRoots(roots)
    ensures forall v :: SameExcept(Slot(r, v), Slot(t, v), 0)
    ensures forall v | v != XEt :: Slot(r, v).s0 == FullValueCombine(Slot(t, v)).s0
    ensures Slot(r, XEt).s0 == FullValueCombine(Slot(t, XEt)).s0 + NoiseA(roots, t.rand[0], t.rand[1])
    ensures |r.rand| == |next| && forall i | 0 <= i < |next| :: r.rand[i] == next[i] + t.input
    ensures r.input == t.input && r.prm == t.prm
  {
    t.(vars := v => Combined(t, roots, v), rand := Shift(next, t.input))
  }

  /** The combine of one variable: `x_et` also receives `noise_aRK(0)`. */
  function Combined(t: Column, roots: Roots, v: Var): (r: Slots)
    requires |t.rand| >= 2 && PositiveRoots(roots)
    ensures SameExcept(r, Slot(t, v), 0)
    ensures r.s0 == FullValueCombine(Slot(t, v)).s0 + (if v == XEt then NoiseA(roots, t.rand[0], t.rand[1]) else 0.0)
  {
    if v == XEt then AddToValue(FullValueCombine(Slot(t, v)), NoiseA(roots, t.rand[0], t.rand[1]))
    else FullValueCombine(Slot(t, v))
  }

  /** Every element of `s` plus `c`. */
  function Shift(s: seq<real>, c: real): (r: seq<real>)
    ensures |r| == |s| && forall i | 0 <= i < |s| :: r[i] == s[i] + c
  {
    seq(|s|, i requires 0 <= i < |s| => s[i] + c)
  }

  /** `set_input`: the input changes, nothing else does. */
  function SetInput(t: Column, i: real): (r: Column)
    ensures r.input == i
    ensures r.(input := t.input) == t
  {
    t.(input := i)
  }

  /** The column as constructed: `Vt = E_L_t`, `Vr = E_L_r`, `Ca = Ca_0`,
      every other variable 0, every stage slot 0, input 0; `draws` are the two
      draws of `set_RNG`. */
  function Initial(prm: Params, draws: seq<real>): (t: Column)
    requires |draws| == 2
    ensures forall v, k | 1 <= k <= 4 :: Get(Slot(t, v), k) == 0.0
    ensures forall v | v !in {Vt, Vr, Ca} :: Slot(t, v).s0 == 0.0
    ensures Slot(t, Vt).s0 == ELT && Slot(t, Vr).s0 == ELR && Slot(t, Ca).s0 == Ca0
    ensures t.input == 0.0 && t.rand == draws && t.prm == prm
  {
    Column(v => Init(Rest(v)), draws, 0.0, prm)
  }

  /** The initial value of each variable. */
  function Rest(v: Var): real {
    match v
    case Vt => ELT
    case Vr => ELR
    case Ca => Ca0
    case _ => 0.0
  }
}
