/** The simulation loop of the MATLAB entry point: `(T + onset) * res`
    steps, each one ODE step of both columns followed by one call of the
    stimulation protocol, with every `red`-th state after the onset written
    to the output buffers. */
module Driver {
  import opened Settings
  import opened CArith
  import C = Cortex
  import T = Thalamus
  import O = Ode
  import S = Stimulation

  /** The random numbers one step consumes: the next Gaussian draws of each
      column and the uniform inter-stimulus interval that mode 1 may draw. */
  datatype Draws = Draws(c: seq<real>, t: seq<real>, isi: int)

  /** Both columns and the stimulation protocol. */
  datatype World = World(pair: O.Pair, stim: S.Stim)

  /** `Time`: the number of iteration steps for a simulation of `secs`
      seconds after the onset. */
  function Steps(secs: int): int {
    (secs + Onset) * Res
  }

  /** `T*res/red`, the length of each output buffer, in C's truncating
      division. */
  function Buffer(secs: int): int {
    Quotient(secs * Res, Red)
  }

  /** Step `t` stores its state: it lies after the onset and is a multiple of
      `red`. */
  predicate Sampled(t: int) {
    t >= Onset * Res && Remainder(t, Red) == 0
  }

  /** The steps among 0..t-1 whose state is stored, in the order they are
      written, collected one step at a time. */
  function Stored(t: int): (s: seq<int>)
    ensures forall k | 0 <= k < |s| :: 0 <= s[k] < t && Sampled(s[k])
    decreases t
  {
    if t <= 0 then [] else Stored(t - 1) + (if Sampled(t - 1) then [t - 1] else [])
  }

  /** The number of multiples of `red` in `[onset*res, t)`. */
  function Due(t: int): int {
    if t <= Onset * Res then 0 else (t - Onset * Res + Red - 1) / Red
  }

  /** Step t adds one to the count exactly when it is stored, and a stored
      step is the onset plus `red` times the count before it. */
  lemma DueStep(t: int)
    requires t >= 0
    ensures Due(t + 1) == Due(t) + (if Sampled(t) then 1 else 0)
    ensures Sampled(t) ==> t == Onset * Res + Due(t) * Red
  {
    if t >= Onset * Res {
      var u := t - Onset * Res;
      var q, m := u / Red, u % Red;
      assert u == Red * q + m && 0 <= m < Red;
      assert Remainder(t, Red) == m by {
        assert t == Red * (q + Onset * Res / Red) + m;
      }
      assert Due(t + 1) == q + 1 by {
        assert t + 1 - Onset * Res + Red - 1 == Red * (q + 1) + m;
      }
      if u > 0 {
        assert Due(t) == (if m == 0 then q else q + 1) by {
          if m == 0 {
            assert u + Red - 1 == Red * q + (Red - 1);
          } else {
            assert u + Red - 1 == Red * (q + 1) + (m - 1);
          }
        }
      }
    }
  }

  /** Buffer position k receives step `onset*res + k*red`, and the steps
      below t fill `Due(t)` positions. */
  lemma {:induction false} StoredClosed(t: int)
    ensures |Stored(t)| == Due(t)
    ensures forall k | 0 <= k < |Stored(t)| :: Stored(t)[k] == Onset * Res + k * Red
    decreases t
  {
    if t > 0 {
      StoredClosed(t - 1);
      DueStep(t - 1);
    }
  }

  /** The loop stores exactly one buffer's length of samples (none for a
      negative duration), each at the position its step predicts. */
  lemma SamplesFillBuffers(secs: int)
    ensures var s := Stored(S.Max(0, Steps(secs)));
            && |s| == S.Max(0, Buffer(secs))
            && forall k | 0 <= k < |s| :: s[k] == Onset * Res + k * Red && k < Buffer(secs)
  {
    var n := S.Max(0, Steps(secs));
    StoredClosed(n);
    if secs >= 0 {
      assert secs * Res == Red * (secs * 100);
      if secs > 0 {
        assert Steps(secs) - Onset * Res + Red - 1 == Red * (secs * 100) + (Red - 1);
      }
    } else {
      assert Buffer(secs) < 0;
    }
  }

  /** `ODE(Cortex, Thalamus)` as a function of the pair and the next draws of
      the cortex and the thalamus. */
  type Advance = (O.Pair, seq<real>, seq<real>) -> O.Pair

  /** `check_stim(t)` as a function of the protocol, the step index, the
      pyramidal voltage and the ISI draw. */
  type Respond = (S.Stim, int, real, int) -> S.Outcome

  /** The two calls of one loop iteration. The loop's properties hold for
      every step that regenerates the draws as `ODE` does and every protocol
      with the guarantees of `check_stim`; the simulation is `Model(env)`. */
  datatype Loop = Loop(ode: Advance, respond: Respond)

  /** Whether the pair has the draws a step reads and the next draws fit. */
  predicate Steppable(p: O.Pair, nextC: seq<real>, nextT: seq<real>) {
    |p.c.rand| >= 4 && |p.t.rand| >= 2 && |nextC| == |p.c.rand| && |nextT| == |p.t.rand|
  }

  /** A step regenerates the draws as `add_RK` does: the cortex receives the
      next draws, the thalamus the next draws shifted by its input, which the
      step itself does not change. */
  ghost predicate Regenerates(ode: Advance) {
    forall p, nextC, nextT | Steppable(p, nextC, nextT) ::
      && ode(p, nextC, nextT).c.rand == nextC
      && ode(p, nextC, nextT).t.input == p.t.input
      && |ode(p, nextC, nextT).t.rand| == |nextT|
      && forall i | 0 <= i < |nextT| :: ode(p, nextC, nextT).t.rand[i] == nextT[i] + p.t.input
  }

  /** Bursts, if ever enabled, have positive length and spacing. */
  predicate BurstsValid(cfg: S.Config) {
    cfg.burstEnabled ==> cfg.burstLength > 0 && cfg.burstIsi > 0
  }

  /** What `check_stim` needs: valid bursts and, in mode 1, an ISI draw
      inside the configured range. */
  predicate Callable(s: S.Stim, draw: int) {
    BurstsValid(s.cfg) && (s.cfg.mode == 1 ==> S.DrawInRange(s.cfg, draw))
  }

  /** The guarantees of `check_stim`: it only ever issues 0 or `strength`,
      the marker list only grows, and a reachable protocol stays reachable. */
  ghost predicate Controls(respond: Respond) {
    forall s, time, vp, draw | Callable(s, draw) ::
      && S.OnlyBinary(respond(s, time, vp, draw).issued, s.cfg.strength)
      && s.st.markers <= respond(s, time, vp, draw).st.markers
      && (S.Inv(s) ==> S.Inv(S.Stim(s.cfg, respond(s, time, vp, draw).st)))
  }

  ghost predicate Sound(l: Loop) {
    Regenerates(l.ode) && Controls(l.respond)
  }

  /** The step of the model: `Ode.Step` with the given right-hand sides and
      roots (a pair without the draws a step reads stays as it is). */
  function Integrate(env: O.Env): Advance {
    (p: O.Pair, nextC: seq<real>, nextT: seq<real>) => IntegrateAt(env, p, nextC, nextT)
  }

  function IntegrateAt(env: O.Env, p: O.Pair, nextC: seq<real>, nextT: seq<real>): O.Pair {
    if Steppable(p, nextC, nextT) && PositiveRoots(env.roots) then O.Step(p, env, nextC, nextT) else p
  }

  /** The protocol of the model: `Stimulation.CheckStim` (a call it cannot
      handle changes nothing). */
  function Protocol(): Respond {
    (s: S.Stim, time: int, vp: real, draw: int) => ProtocolAt(s, time, vp, draw)
  }

  function ProtocolAt(s: S.Stim, time: int, vp: real, draw: int): S.Outcome {
    if Callable(s, draw) then S.CheckStim(s, time, vp, draw) else S.Outcome(s.st, [])
  }

  /** The loop of the simulation. */
  function Model(env: O.Env): Loop {
    Loop(Integrate(env), Protocol())
  }

  /** One application of the model's step: the draws `Ode.Step` leaves. */
  lemma StepRegenerates(env: O.Env, p: O.Pair, nextC: seq<real>, nextT: seq<real>)
    requires PositiveRoots(env.roots) && Steppable(p, nextC, nextT)
    ensures var r := Integrate(env)(p, nextC, nextT);
            && r.c.rand == nextC && r.t.input == p.t.input && |r.t.rand| == |nextT|
            && forall i | 0 <= i < |nextT| :: r.t.rand[i] == nextT[i] + p.t.input
  {
    assert Integrate(env)(p, nextC, nextT) == O.Step(p, env, nextC, nextT);
  }

  /** One call of the model's protocol has the guarantees of `check_stim`. */
  lemma CallControls(s: S.Stim, time: int, vp: real, draw: int)
    requires Callable(s, draw)
    ensures var o := Protocol()(s, time, vp, draw);
            && S.OnlyBinary(o.issued, s.cfg.strength)
            && s.st.markers <= o.st.markers
            && (S.Inv(s) ==> S.Inv(S.Stim(s.cfg, o.st)))
  {
    assert Protocol()(s, time, vp, draw) == S.CheckStim(s, time, vp, draw);
    if S.Inv(s) {
      S.CheckStimKeepsInv(s, time, vp, draw);
    }
  }

  /** The model's loop regenerates the draws as `ODE` does and controls the
      input as `check_stim` does. */
  lemma ModelSound(env: O.Env)
    requires PositiveRoots(env.roots)
    ensures Sound(Model(env))
  {
    var l := Model(env);
    forall p, nextC, nextT | Steppable(p, nextC, nextT)
      ensures && l.ode(p, nextC, nextT).c.rand == nextC
              && l.ode(p, nextC, nextT).t.input == p.t.input
              && |l.ode(p, nextC, nextT).t.rand| == |nextT|
              && forall i | 0 <= i < |nextT| :: l.ode(p, nextC, nextT).t.rand[i] == nextT[i] + p.t.input
    {
      StepRegenerates(env, p, nextC, nextT);
    }
    forall s, time, vp, draw | Callable(s, draw)
      ensures && S.OnlyBinary(l.respond(s, time, vp, draw).issued, s.cfg.strength)
              && s.st.markers <= l.respond(s, time, vp, draw).st.markers
              && (S.Inv(s) ==> S.Inv(S.Stim(s.cfg, l.respond(s, time, vp, draw).st)))
    {
      CallControls(s, time, vp, draw);
    }
  }

  /** What every step needs of the world. */
  predicate Ready(w: World) {
    |w.pair.c.rand| >= 4 && |w.pair.t.rand| >= 2 && BurstsValid(w.stim.cfg)
  }

  /** The draws of one step fit the columns' draw vectors and the configured
      ISI range. */
  predicate Fits(w: World, d: Draws) {
    && |d.c| == |w.pair.c.rand| && |d.t| == |w.pair.t.rand|
    && (w.stim.cfg.mode == 1 ==> S.DrawInRange(w.stim.cfg, d.isi))
  }

  /** Every step's draws fit the world. */
  predicate AllFit(w: World, ds: seq<Draws>) {
    forall k | 0 <= k < |ds| :: Fits(w, ds[k])
  }

  /** The thalamic input is one of the two values the protocol sets. */
  predicate Binary(w: World) {
    w.pair.t.input == 0.0 || w.pair.t.input == w.stim.cfg.strength
  }

  /** Loop iteration `t`: `ODE(Cortex, Thalamus)`, then `check_stim(t)`
      reading the pyramidal voltage the step produced, then `set_input` with
      the last value the call issued. The protocol changes nothing of the
      columns but the thalamic input, so the draws this step regenerates
      still carry the input from before the call. */
  function Tick(l: Loop, w: World, t: int, d: Draws): (r: World)
    requires Sound(l) && Ready(w) && Fits(w, d)
    ensures Ready(r) && r.stim.cfg == w.stim.cfg
    ensures |r.pair.c.rand| == |w.pair.c.rand| && |r.pair.t.rand| == |w.pair.t.rand|
    ensures r.pair.c == l.ode(w.pair, d.c, d.t).c
    ensures r.pair.t.(input := w.pair.t.input) == l.ode(w.pair, d.c, d.t).t
    ensures r.pair.c.rand == d.c
    ensures forall i | 0 <= i < |d.t| :: r.pair.t.rand[i] == d.t[i] + w.pair.t.input
    ensures w.stim.st.markers <= r.stim.st.markers
  {
    var p := l.ode(w.pair, d.c, d.t);
    assert Steppable(w.pair, d.c, d.t) && Callable(w.stim, d.isi);
    var o := l.respond(w.stim, t, C.Slot(p.c, C.Ve).s0, d.isi);
    World(O.Pair(p.c, T.SetInput(p.t, S.InputAfter(p.t.input, o.issued))), S.Stim(w.stim.cfg, o.st))
  }

  /** The world after the iterations `0..n-1`, iteration `k` consuming
      `ds[k]`; the draw vectors and the configuration stay as they are. */
  function Run(l: Loop, w: World, ds: seq<Draws>, n: int): (r: World)
    requires Sound(l) && Ready(w) && AllFit(w, ds) && 0 <= n <= |ds|
    ensures Ready(r) && r.stim.cfg == w.stim.cfg
    ensures |r.pair.c.rand| == |w.pair.c.rand| && |r.pair.t.rand| == |w.pair.t.rand|
    ensures w.stim.st.markers <= r.stim.st.markers
    decreases n
  {
    if n == 0 then w
    else
      var v := Run(l, w, ds, n - 1);
      assert Fits(v, ds[n - 1]) by {
        assert Fits(w, ds[n - 1]);
      }
      Tick(l, v, n - 1, ds[n - 1])
  }

  /** One iteration keeps the protocol reachable and the thalamic input at
      0 or `strength`. */
  lemma TickKeepsInvariants(l: Loop, w: World, t: int, d: Draws)
    requires Sound(l) && Ready(w) && Fits(w, d) && S.Inv(w.stim) && Binary(w)
    ensures var r := Tick(l, w, t, d); S.Inv(r.stim) && Binary(r)
  {
    var p := l.ode(w.pair, d.c, d.t);
    assert Steppable(w.pair, d.c, d.t) && Callable(w.stim, d.isi);
    var o := l.respond(w.stim, t, C.Slot(p.c, C.Ve).s0, d.isi);
    var input := S.InputAfter(p.t.input, o.issued);
    if input != p.t.input {
      var i :| 0 <= i < |o.issued| && o.issued[i] == input;
    }
  }

  /** So does every run. */
  lemma {:induction false} RunKeepsInvariants(l: Loop, w: World, ds: seq<Draws>, n: int)
    requires Sound(l) && Ready(w) && AllFit(w, ds) && 0 <= n <= |ds|
    requires S.Inv(w.stim) && Binary(w)
    ensures S.Inv(Run(l, w, ds, n).stim) && Binary(Run(l, w, ds, n))
    decreases n
  {
    if n > 0 {
      RunKeepsInvariants(l, w, ds, n - 1);
      var v := Run(l, w, ds, n - 1);
      assert Fits(v, ds[n - 1]) by {
        assert Fits(w, ds[n - 1]);
      }
      TickKeepsInvariants(l, v, n - 1, ds[n - 1]);
    }
  }

  /** An input the protocol sets at iteration t first reaches the thalamic
      draws at the end of iteration t+1: the draws of iteration t still
      carry the input from before. */
  lemma InputReachesDrawsNextStep(l: Loop, w: World, t: int, d: Draws, d': Draws, i: int)
    requires Sound(l) && Ready(w) && Fits(w, d) && Fits(w, d') && 0 <= i < |d.t|
    ensures var w1 := Tick(l, w, t, d);
            && w1.pair.t.rand[i] == d.t[i] + w.pair.t.input
            && Tick(l, w1, t + 1, d').pair.t.rand[i] == d'.t[i] + w1.pair.t.input
  {
    var w1 := Tick(l, w, t, d);
    assert Fits(w1, d');
  }

  /** The loop of `mexFunction`: `(T + onset) * res` iterations, storing the
      state of every sampled step at buffer position `count`, which then
      advances. `stored` lists the steps written, so `count` is its length
      and `stored[k]` is the step whose state buffer position k holds. The
      final world is the run of all iterations; buffer position k receives
      step `onset*res + k*red`, so every write falls inside buffers of length
      `T*res/red`, which the samples exactly fill. */
  method Simulate(l: Loop, secs: int, w0: World, ds: seq<Draws>) returns (w: World, stored: seq<int>)
    requires Sound(l) && Ready(w0) && AllFit(w0, ds) && |ds| == S.Max(0, Steps(secs))
    ensures w == Run(l, w0, ds, |ds|)
    ensures |stored| == S.Max(0, Buffer(secs))
    ensures forall k | 0 <= k < |stored| :: stored[k] == Onset * Res + k * Red && Sampled(stored[k])
    ensures forall k | 0 <= k < |stored| :: stored[k] < |ds| && k < Buffer(secs)
  {
    var time := Steps(secs);
    w := w0;
    stored := [];
    var t := 0;
    while t < time
      invariant 0 <= t <= |ds|
      invariant time > 0 ==> |ds| == time
      invariant Ready(w) && w.stim.cfg == w0.stim.cfg
      invariant |w.pair.c.rand| == |w0.pair.c.rand| && |w.pair.t.rand| == |w0.pair.t.rand|
      invariant w == Run(l, w0, ds, t)
      invariant stored == Stored(t)
    {
      assert Fits(w0, ds[t]);
      w := Tick(l, w, t, ds[t]);
      if Sampled(t) {
        stored := stored + [t];
      }
      t := t + 1;
    }
    assert t == S.Max(0, Steps(secs));
    SamplesFillBuffers(secs);
  }
}
