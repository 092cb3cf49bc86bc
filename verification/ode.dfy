/** The lock-step driver `ODE`: the cortical and the thalamic stage of each
    index 1..4 in turn, cortex first, then the two combines, cortex first; and
    the coupling between the columns at each stage.

    The thalamic stage of the driver's index i is the column's stage i-1,
    because the thalamic stage writes slot N+1 and reads `A[N]`, `B[N]`, which
    only exist for N in 0..3. The cortex's stage i reads the thalamic flux at
    slot i-1, the input of the thalamus's stage i-1. The thalamus's stage
    i-1 reads the raw cortical slot `Cortex->y[i-1]` as written, or, in the
    corrected coupling, the cortex's stage value `get_phi(i)`; the
    environment says which. */
module Ode {
  import opened Settings
  import opened Slots
  import opened Rk
  import C = Cortex
  import T = Thalamus

  /** The cortical value a thalamic stage reads: the raw slot, as the
      thalamic column is written, or the cortex's reconstructed stage value. */
  datatype Coupling = RawSlot | StageValue

  /** The right-hand sides of the two columns, the two roots and the
      coupling. Every property of the driver holds whatever the right-hand
      sides and the coupling are; the simulation as written uses
      `C.Equations`, `T.Equations` and `RawSlot`. */
  datatype Env = Env(cf: C.Field, tf: T.Field, roots: Roots, coupling: Coupling)

  /** Both columns. */
  datatype Pair = Pair(c: C.Column, t: T.Column)

  /** The columns hold the draws their stages read, and the roots are valid. */
  predicate Ready(p: Pair, env: Env) {
    |p.c.rand| >= 4 && |p.t.rand| >= 2 && PositiveRoots(env.roots)
  }

  /** The thalamic flux the cortex's stage i reads: the thalamus's stage
      i-1 input of its flux `y`. */
  function ThalamicFlux(t: T.Column, i: int): (r: real)
    requires 1 <= i <= 4
    ensures r == T.At(T.Inputs(t, i - 1), T.Y)
  {
    Get(T.Slot(t, T.Y), i - 1)
  }

  /** The cortical flux the thalamus's stage k reads, as written: the raw
      slot k of the cortical flux `Cortex->y[N]`. Slots 1..4 of a cortical
      variable hold `Dt`-scaled increments, not values. */
  function CorticalFluxAsWritten(c: C.Column, k: int): (r: real)
    requires 0 <= k <= 3
    ensures k == 0 ==> r == CorticalFlux(c, 0)
    ensures k >= 1 ==> CorticalFlux(c, k) == C.Slot(c, C.PhiE).s0 + StageWeight(k + 1) * r
  {
    Get(C.Slot(c, C.PhiE), k)
  }

  /** The cortical flux the thalamus's stage k evidently should read: the
      cortex's reconstruction `get_phi(k+1)` of its flux at the same stage. */
  function CorticalFlux(c: C.Column, k: int): (r: real)
    requires 0 <= k <= 3
    ensures r == C.At(C.Inputs(c, k + 1), C.PhiE)
  {
    C.GetPhi(c, k + 1)
  }

  /** The cortical flux the thalamus's stage k reads under the coupling of
      `env`. */
  function CorticalFluxRead(env: Env, c: C.Column, k: int): real
    requires 0 <= k <= 3
  {
    match env.coupling
    case RawSlot => CorticalFluxAsWritten(c, k)
    case StageValue => CorticalFlux(c, k)
  }

  /** The raw slot and the stage value agree at the first stage only: a
      column whose flux is 1 and whose previous increment is 0 offers the
      thalamus 0 at its second stage instead of 1. */
  lemma CorticalFluxMismatch(c: C.Column)
    requires C.Slot(c, C.PhiE) == Slots(1.0, 0.0, 0.0, 0.0, 0.0)
    ensures CorticalFluxAsWritten(c, 0) == CorticalFlux(c, 0) == 1.0
    ensures CorticalFluxAsWritten(c, 1) == 0.0 && CorticalFlux(c, 1) == 1.0
  {
  }

  /** Both stages of index i: the cortex's stage i reads the thalamic flux,
      then the thalamus's stage i-1 reads the flux of the updated cortex. */
  function Lockstep(p: Pair, env: Env, i: int): (r: Pair)
    requires Ready(p, env) && 1 <= i <= 4
    ensures Ready(r, env) && r.c.rand == p.c.rand && r.t.rand == p.t.rand && r.t.input == p.t.input
  {
    var c := C.SetRK(p.c, i, env.cf, env.roots, ThalamicFlux(p.t, i));
    Pair(c, T.SetRK(p.t, i - 1, env.tf, env.roots, CorticalFluxRead(env, c, i - 1)))
  }

  /** The pair after the lock-steps of indices 1..i of the step that starts
      at `p`; no stage changes the draws or the input. */
  function After(p: Pair, env: Env, i: int): (r: Pair)
    requires Ready(p, env) && 0 <= i <= 4
    ensures Ready(r, env) && r.c.rand == p.c.rand && r.t.rand == p.t.rand && r.t.input == p.t.input
    decreases i
  {
    if i == 0 then p else Lockstep(After(p, env, i - 1), env, i)
  }

  /** `ODE(Cortex, Thalamus)`: for i = 1..4 the cortical then the thalamic
      stage, then the cortical and the thalamic combine with the draws of the
      next step. Afterwards the cortex holds the next draws and the thalamus
      the next draws shifted by its input, which the step leaves alone. */
  function Step(p: Pair, env: Env, nextC: seq<real>, nextT: seq<real>): (r: Pair)
    requires Ready(p, env) && |nextC| == |p.c.rand| && |nextT| == |p.t.rand|
    ensures Ready(r, env) && |r.c.rand| == |p.c.rand| && |r.t.rand| == |p.t.rand|
    ensures r.c.rand == nextC && r.t.input == p.t.input
    ensures forall i | 0 <= i < |nextT| :: r.t.rand[i] == nextT[i] + p.t.input
  {
    var q := After(p, env, 4);
    Pair(C.AddRK(q.c, env.roots, nextC), T.AddRK(q.t, env.roots, nextT))
  }

  /** The cortical derivative of the lock-step of index i from `q`. */
  function CortexD(q: Pair, env: Env, i: int): C.Point
    requires Ready(q, env) && 1 <= i <= 4
  {
    C.Derivative(q.c, i, env.cf, env.roots, ThalamicFlux(q.t, i))
  }

  /** The thalamic derivative of the lock-step of index i from `q`: its
      stage i-1, read after the cortex's stage i. */
  function ThalamusD(q: Pair, env: Env, i: int): T.Point
    requires Ready(q, env) && 1 <= i <= 4
  {
    T.Derivative(q.t, i - 1, env.tf, CorticalFluxRead(env, Lockstep(q, env, i).c, i - 1))
  }

  /** The cortical derivative at stage i of the step that starts at `p`. */
  function CortexK(p: Pair, env: Env, i: int, x: C.Var): real
    requires Ready(p, env) && 1 <= i <= 4
  {
    C.At(CortexD(After(p, env, i - 1), env, i), x)
  }

  /** The thalamic derivative computed by lock-step i (thalamic stage i-1)
      of the step that starts at `p`. */
  function ThalamusK(p: Pair, env: Env, i: int, v: T.Var): real
    requires Ready(p, env) && 1 <= i <= 4
  {
    T.At(ThalamusD(After(p, env, i - 1), env, i), v)
  }

  /** The lock-step of index i writes `Dt` times the stage-i derivative into
      cortical slot i and changes nothing else. */
  lemma CortexLockstep(q: Pair, env: Env, i: int, x: C.Var)
    requires Ready(q, env) && 1 <= i <= 4
    ensures C.Slot(Lockstep(q, env, i).c, x) == IncrementWrite(C.Slot(q.c, x), i, C.At(CortexD(q, env, i), x))
  {
    var c := C.SetRK(q.c, i, env.cf, env.roots, ThalamicFlux(q.t, i));
    assert Lockstep(q, env, i).c == c;
  }

  /** The lock-step of index i writes slot 0 plus `A[i-1] * Dt` times the
      stage-(i-1) derivative plus the stage noise into thalamic slot i and
      changes nothing else. */
  lemma ThalamusLockstep(q: Pair, env: Env, i: int, v: T.Var)
    requires Ready(q, env) && 1 <= i <= 4
    ensures T.Slot(Lockstep(q, env, i).t, v)
         == FullValueWrite(T.Slot(q.t, v), i - 1, T.At(ThalamusD(q, env, i), v), T.StageNoise(q.t, env.roots, i - 1, v))
  {
    var c := Lockstep(q, env, i).c;
    var t := T.SetRK(q.t, i - 1, env.tf, env.roots, CorticalFluxRead(env, c, i - 1));
    assert Lockstep(q, env, i).t == t;
  }

  /** Index i of the step writes cortical slot i and nothing else. */
  lemma CortexIndexWrites(p: Pair, env: Env, i: int, x: C.Var)
    requires Ready(p, env) && 1 <= i <= 4
    ensures C.Slot(After(p, env, i).c, x) == IncrementWrite(C.Slot(After(p, env, i - 1).c, x), i, CortexK(p, env, i, x))
  {
    var q := After(p, env, i - 1);
    assert After(p, env, i) == Lockstep(q, env, i);
    CortexLockstep(q, env, i, x);
  }

  /** Index i of the step writes thalamic slot i and nothing else. */
  lemma ThalamusIndexWrites(p: Pair, env: Env, i: int, v: T.Var)
    requires Ready(p, env) && 1 <= i <= 4
    ensures T.Slot(After(p, env, i).t, v)
         == FullValueWrite(T.Slot(After(p, env, i - 1).t, v), i - 1, ThalamusK(p, env, i, v), T.StageNoise(p.t, env.roots, i - 1, v))
  {
    var q := After(p, env, i - 1);
    assert After(p, env, i) == Lockstep(q, env, i);
    assert q.t.rand[0] == p.t.rand[0] && q.t.rand[1] == p.t.rand[1];
    T.StageNoiseReadsDraws(q.t, p.t, env.roots, i - 1, v);
    ThalamusLockstep(q, env, i, v);
  }

  /** After the four lock-steps, cortical variable x holds its start
      vector with the four `Dt`-scaled stage derivatives written into slots
      1..4. */
  lemma CortexTraceSlots(p: Pair, env: Env, x: C.Var)
    requires Ready(p, env)
    ensures C.Slot(After(p, env, 4).c, x)
         == IncrementWrite(IncrementWrite(IncrementWrite(IncrementWrite(C.Slot(p.c, x),
              1, CortexK(p, env, 1, x)), 2, CortexK(p, env, 2, x)), 3, CortexK(p, env, 3, x)), 4, CortexK(p, env, 4, x))
  {
    assert After(p, env, 0) == p;
    CortexIndexWrites(p, env, 1, x);
    CortexIndexWrites(p, env, 2, x);
    CortexIndexWrites(p, env, 3, x);
    CortexIndexWrites(p, env, 4, x);
  }

  /** After the four lock-steps, thalamic variable v holds its start vector
      with the four stage values written into slots 1..4: slot 0 plus
      `A[k] * Dt` times the stage-k derivative plus the stage noise. */
  lemma ThalamusTraceSlots(p: Pair, env: Env, v: T.Var)
    requires Ready(p, env)
    ensures T.Slot(After(p, env, 4).t, v)
         == FullValueWrite(FullValueWrite(FullValueWrite(FullValueWrite(T.Slot(p.t, v),
              0, ThalamusK(p, env, 1, v), T.StageNoise(p.t, env.roots, 0, v)),
              1, ThalamusK(p, env, 2, v), T.StageNoise(p.t, env.roots, 1, v)),
              2, ThalamusK(p, env, 3, v), T.StageNoise(p.t, env.roots, 2, v)),
              3, ThalamusK(p, env, 4, v), T.StageNoise(p.t, env.roots, 3, v))
  {
    assert After(p, env, 0) == p;
    ThalamusIndexWrites(p, env, 1, v);
    ThalamusIndexWrites(p, env, 2, v);
    ThalamusIndexWrites(p, env, 3, v);
    ThalamusIndexWrites(p, env, 4, v);
  }

  /** No lock-step changes slot 0 of any variable: the stages of a step all
      start from the values the step started with. */
  lemma {:induction false} AfterKeepsValues(p: Pair, env: Env, i: int)
    requires Ready(p, env) && 0 <= i <= 4
    ensures forall x :: C.Slot(After(p, env, i).c, x).s0 == C.Slot(p.c, x).s0
    ensures forall v :: T.Slot(After(p, env, i).t, v).s0 == T.Slot(p.t, v).s0
    decreases i
  {
    if i > 0 {
      AfterKeepsValues(p, env, i - 1);
      forall x ensures C.Slot(After(p, env, i).c, x).s0 == C.Slot(p.c, x).s0 {
        CortexIndexWrites(p, env, i, x);
      }
      forall v ensures T.Slot(After(p, env, i).t, v).s0 == T.Slot(p.t, v).s0 {
        ThalamusIndexWrites(p, env, i, v);
      }
    }
  }

  /** The cortex's stage i reads the thalamic flux at the thalamus's own
      stage-i input: the flux of the step's start, plus the stage weight
      times `Dt` times the thalamic derivative of the previous stage. */
  lemma ThalamicFluxAtStage(p: Pair, env: Env, i: int)
    requires Ready(p, env) && 1 <= i <= 4
    ensures i == 1 ==> ThalamicFlux(After(p, env, i - 1).t, i) == T.Slot(p.t, T.Y).s0
    ensures i >= 2 ==> (ThalamicFlux(After(p, env, i - 1).t, i)
                        == T.Slot(p.t, T.Y).s0 + StageWeight(i) * Dt * ThalamusK(p, env, i - 1, T.Y))
  {
    if i == 1 {
      assert After(p, env, 0) == p;
    } else {
      AfterKeepsValues(p, env, i - 2);
      ThalamusIndexWrites(p, env, i - 1, T.Y);
    }
  }

  /** At lock-step i the cortex has finished its stage i. Its reconstruction
      `get_phi(i)` is then the cortical stage-i input of the flux, the start
      value plus the stage weight times `Dt` times the previous cortical
      derivative; the raw slot `y[i-1]` is only `Dt` times that derivative,
      without the value. */
  lemma CorticalFluxAtStage(p: Pair, env: Env, i: int)
    requires Ready(p, env) && 1 <= i <= 4
    ensures i == 1 ==> CorticalFlux(After(p, env, i).c, i - 1) == CorticalFluxAsWritten(After(p, env, i).c, i - 1)
                                                           == C.Slot(p.c, C.PhiE).s0
    ensures i >= 2 ==> (CorticalFlux(After(p, env, i).c, i - 1)
                        == C.Slot(p.c, C.PhiE).s0 + StageWeight(i) * Dt * CortexK(p, env, i - 1, C.PhiE))
    ensures i >= 2 ==> CorticalFluxAsWritten(After(p, env, i).c, i - 1) == Dt * CortexK(p, env, i - 1, C.PhiE)
  {
    CortexFluxSlots(p, env, i);
  }

  /** After lock-step i the cortical flux keeps its start value in slot 0
      and holds `Dt` times the stage-(i-1) derivative in slot i-1. */
  lemma CortexFluxSlots(p: Pair, env: Env, i: int)
    requires Ready(p, env) && 1 <= i <= 4
    ensures C.Slot(After(p, env, i).c, C.PhiE).s0 == C.Slot(p.c, C.PhiE).s0
    ensures i >= 2 ==> Get(C.Slot(After(p, env, i).c, C.PhiE), i - 1) == Dt * CortexK(p, env, i - 1, C.PhiE)
  {
    AfterKeepsValues(p, env, i);
    CortexIndexWrites(p, env, i, C.PhiE);
    if i >= 2 {
      CortexIndexWrites(p, env, i - 1, C.PhiE);
    }
  }

  /** The thalamic derivative of lock-step i is taken at the flux that the
      coupling reads from the cortex after its stage i. */
  lemma ThalamusKReads(p: Pair, env: Env, i: int, v: T.Var)
    requires Ready(p, env) && 1 <= i <= 4
    ensures ThalamusK(p, env, i, v)
         == T.At(T.Derivative(After(p, env, i - 1).t, i - 1, env.tf, CorticalFluxRead(env, After(p, env, i).c, i - 1)), v)
  {
    assert Lockstep(After(p, env, i - 1), env, i) == After(p, env, i);
  }

  /** The cortical flux lock-step i hands to the thalamus: the cortical
      stage-i input under the corrected coupling, the bare increment `Dt`
      times the previous cortical derivative as written. */
  lemma CorticalFluxReadAtStage(p: Pair, env: Env, i: int)
    requires Ready(p, env) && 2 <= i <= 4
    ensures env.coupling == RawSlot ==>
              CorticalFluxRead(env, After(p, env, i).c, i - 1) == Dt * CortexK(p, env, i - 1, C.PhiE)
    ensures env.coupling == StageValue ==>
              CorticalFluxRead(env, After(p, env, i).c, i - 1)
              == C.Slot(p.c, C.PhiE).s0 + StageWeight(i) * Dt * CortexK(p, env, i - 1, C.PhiE)
  {
    CorticalFluxAtStage(p, env, i);
  }

  /** The thalamic derivative of lock-step i is the thalamic right-hand side
      at the stage's slot, taken at the cortical stage-i input under the
      corrected coupling and at the bare increment as written. */
  lemma ThalamusStageReads(p: Pair, env: Env, i: int, v: T.Var)
    requires Ready(p, env) && 2 <= i <= 4
    ensures env.coupling == RawSlot ==>
              ThalamusK(p, env, i, v)
              == T.At(T.Derivative(After(p, env, i - 1).t, i - 1, env.tf, Dt * CortexK(p, env, i - 1, C.PhiE)), v)
    ensures env.coupling == StageValue ==>
              ThalamusK(p, env, i, v)
              == T.At(T.Derivative(After(p, env, i - 1).t, i - 1, env.tf,
                                   C.Slot(p.c, C.PhiE).s0 + StageWeight(i) * Dt * CortexK(p, env, i - 1, C.PhiE)), v)
  {
    var t := After(p, env, i - 1).t;
    var read := CorticalFluxRead(env, After(p, env, i).c, i - 1);
    var k := CortexK(p, env, i - 1, C.PhiE);
    ThalamusKReads(p, env, i, v);
    CorticalFluxReadAtStage(p, env, i);
    if env.coupling == RawSlot {
      assert read == Dt * k;
    } else {
      assert read == C.Slot(p.c, C.PhiE).s0 + StageWeight(i) * Dt * k;
    }
  }

  /** One step advances cortical variable x by the classic fourth-order
      Runge-Kutta sum of its four stage derivatives, `x_ee` and `x_ei` also
      by their final noise from this step's draws. */
  lemma CortexStepIsRk4(p: Pair, env: Env, nextC: seq<real>, nextT: seq<real>, x: C.Var)
    requires Ready(p, env) && |nextC| == |p.c.rand| && |nextT| == |p.t.rand|
    ensures var r := Step(p, env, nextC, nextT);
            C.Slot(r.c, x).s0
              == Rk4Sum(C.Slot(p.c, x).s0, CortexK(p, env, 1, x), CortexK(p, env, 2, x), CortexK(p, env, 3, x), CortexK(p, env, 4, x))
                 + C.FinalNoise(p.c, env.roots, x)
  {
    CortexCombines(p, env, nextC, nextT, x);
    CortexTraceSlots(p, env, x);
    IncrementChain(C.Slot(p.c, x), CortexK(p, env, 1, x), CortexK(p, env, 2, x), CortexK(p, env, 3, x), CortexK(p, env, 4, x));
  }

  /** The cortical combine of a step acts on the vector after the four
      lock-steps, with the final noise of the step's own draws. */
  lemma CortexCombines(p: Pair, env: Env, nextC: seq<real>, nextT: seq<real>, x: C.Var)
    requires Ready(p, env) && |nextC| == |p.c.rand| && |nextT| == |p.t.rand|
    ensures C.Slot(Step(p, env, nextC, nextT).c, x).s0
         == IncrementCombine(C.Slot(After(p, env, 4).c, x)).s0 + C.FinalNoise(p.c, env.roots, x)
  {
    var noise := C.FinalNoise(p.c, env.roots, x);
    var q := After(p, env, 4);
    assert q.c.rand[0] == p.c.rand[0] && q.c.rand[2] == p.c.rand[2];
    C.FinalNoiseReadsDraws(q.c, p.c, env.roots, x);
    var r := C.AddRK(q.c, env.roots, nextC);
    assert Step(p, env, nextC, nextT).c == r;
    assert C.Slot(r, x).s0 == IncrementCombine(C.Slot(q.c, x)).s0 + noise;
  }

  /** One step advances thalamic variable v by the classic fourth-order
      Runge-Kutta sum of its four stage derivatives; the stage noise of
      `x_et` and the noise of the combine add up to `gamma_e^2 r[0]`, the
      second draw cancelling. */
  lemma ThalamusStepIsRk4(p: Pair, env: Env, nextC: seq<real>, nextT: seq<real>, v: T.Var)
    requires Ready(p, env) && ValidRoots(env.roots) && |nextC| == |p.c.rand| && |nextT| == |p.t.rand|
    ensures var r := Step(p, env, nextC, nextT);
            T.Slot(r.t, v).s0
              == Rk4Sum(T.Slot(p.t, v).s0, ThalamusK(p, env, 1, v), ThalamusK(p, env, 2, v), ThalamusK(p, env, 3, v), ThalamusK(p, env, 4, v))
                 + (if v == T.XEt then T.GammaE * T.GammaE * p.t.rand[0] else 0.0)
  {
    var q := After(p, env, 4);
    assert Step(p, env, nextC, nextT).t == T.AddRK(q.t, env.roots, nextT);
    ThalamusTraceSlots(p, env, v);
    var k0, k1, k2, k3 := ThalamusK(p, env, 1, v), ThalamusK(p, env, 2, v), ThalamusK(p, env, 3, v), ThalamusK(p, env, 4, v);
    var e0, e1, e2, e3 := T.StageNoise(p.t, env.roots, 0, v), T.StageNoise(p.t, env.roots, 1, v),
                          T.StageNoise(p.t, env.roots, 2, v), T.StageNoise(p.t, env.roots, 3, v);
    FullValueChain(T.Slot(p.t, v), k0, k1, k2, k3, e0, e1, e2, e3);
    T.NoiseTotal(env.roots, p.t.rand[0], p.t.rand[1]);
  }
}
