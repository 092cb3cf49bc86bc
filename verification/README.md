# Thalamocortical neural-mass model: stimulation, stochastic RK4 and the simulation loop

This project models three parts of the cortex/thalamus neural-mass simulation
of Schellenberger Costa et al.:

- **The closed-loop stimulation protocol** (`Stim`). `setup` turns the
  parameter vector into a configuration counted in time steps. `check_stim(t)`
  is a state machine:
  - mode 0 (and every mode other than 1 and 2) does nothing;
  - mode 1 fires semi-periodically;
  - mode 2 fires by phase, that is after a threshold crossing of the
    pyramidal voltage, the following minimum and a delay;
  - a running stimulus switches off after `duration` steps;
  - optional bursts gate the stimulus on and off;
  - in mode 2 a pause follows every stimulation event.

  A call is a pure transition on a state record. It reports the values it
  passed to the thalamus's `set_input`, in order, and appends start markers.
- **The stochastic fourth-order Runge-Kutta scheme** of both columns, over
  `real`. Every variable is a five-slot vector.
  - The cortex writes increments `dt*f` into slots 1..4, reading inputs that
    the `_SWITCH` macro reconstructs. Its combine adds `(s1+2s2+2s3+s4)/6`.
  - The thalamus writes full values `s0 + A[N]*dt*f` into slot N+1. Its
    combine replaces slot 0 by `(-3s0+2s1+4s2+2s3+s4)/6`.
  - The stage noise and the combine noise are linear functions of the
    Gaussian draws.
  - `ODE` runs the two columns in lock-step.

  Both conventions are proved to be the classical RK4 step, variable by
  variable. The thalamic noise of one step adds up to exactly `gamma_e^2 r[0]`.
- **The loop of `mexFunction`.** Each step is one `ODE` step followed by one
  `check_stim(t)`. Every `red`-th step after the onset is stored at buffer
  position `count`. The model proves that the stored steps exactly fill
  buffers of length `T*res/red`.

Modules, in dependency order:

| file | module | contents |
|---|---|---|
| settings.dfy | `Settings` | `onset`, `res`, `red`, `dt`; `h = sqrt(dt)` and `sqrt(3)` as a `Roots` record constrained by `ValidRoots` |
| carith.dfy | `CArith` | C's `(int)` cast, truncating `/` and `%`, and a division whose divisor may vanish |
| slots.dfy | `Slots` | the five-slot vector, `_INIT`, `_SWITCH`/`_SET_RK1..4` |
| rk.dfy | `Rk` | the two staging conventions and the textbook RK4 reference |
| cortex.dfy | `Cortex` | `Cortical_Column`: currents, `Na_pump`, `noise_xRK`, `get_phi`, `set_RK`, `add_RK`, constructor |
| thalamus.dfy | `Thalamus` | `Thalamic_Column`: currents, `P_h`, `act_h`, `noise_xRK`, `noise_aRK`, `set_RK`, `add_RK`, `set_input`, constructor |
| ode.dfy | `Ode` | `ODE`: the lock-step of the two columns and the coupling |
| stimulation.dfy | `Stimulation` | `Stim::setup` and `Stim::check_stim` |
| driver.dfy | `Driver` | the simulation loop of `mexFunction` |

Choices made where the source's files disagree:

- **Cortical names.** Cortical_Column.cpp and Cortical_Column.h use different
  names for the same quantities. The model uses the implementation file's:
  - `Phi_ee..Phi_ii` for `y_ee..y_ii`;
  - `phi_e` for `y`;
  - `y_e` for `x`;
  - `gL_e`, `gL_i` for `g_L`.

  The protocol reads `Cortex->Vp[0]`; the cortex calls this variable `Ve`.
- **Thalamic names.** The model uses the implementation file's names:
  - `y_et, y_er, x_et, x_er` for the header's `y_tt, y_tr, x_tt, x_tr`;
  - `N_pt, N_pr` for `N_et, N_er`;
  - `gamma_g` for `gamma_i`.

  The currents use `g_AMPA` and `g_GABA`, which the header does not declare.
  They are supplied with the other kinetics.
- **Thalamic stage index.** `ODE` calls `Thalamus.set_RK(i)` for i = 1..4.
  The thalamic stage writes slot `N+1` and reads `A[N]` and `B[N]`, which
  exist only for N = 0..3. Lock-step i is therefore the thalamus's stage
  i-1.
- **Coupling.** The cortex's stage i reads `Thalamus->get_phi(i)`, which the
  thalamus does not define. It is modelled as the thalamic flux at slot i-1,
  the input of the thalamus's stage i-1. The thalamus reads the raw slot
  `Cortex->y[N]`; see Findings. `Ode.Env` carries the coupling:
  - `RawSlot` is the source as written;
  - `StageValue` reads the cortex's `get_phi(N+1)` instead.

  Every property of `Ode` and `Driver` holds for both.

The transcendental parts are parameters of the model. These are the sigmoids
`get_Qe/Qi/Qt/Qr`, the gating and time-constant functions and `w_KNa`. They
are collected in the `Cortex.Rates` and `Thalamus.Kinetics` records, and the
columns' right-hand sides are `Cortex.Equations(rates)` and
`Thalamus.Equations(kin)`.

The lock-step properties in `Ode` hold for **any** right-hand side
(`Cortex.Field`, `Thalamus.Field`).

The simulation as written is `Driver.Model(Ode.Env(Cortex.Equations(rates),
Thalamus.Equations(kin), roots, Ode.RawSlot))`.

The loop properties in `Driver` hold for **any** ODE step that regenerates
the draws as `add_RK` does (`Driver.Regenerates`). They also hold for **any**
protocol with the guarantees of `check_stim` (`Driver.Controls`): it issues
only 0 or `strength`, the markers only grow, and its invariant is kept.
`Driver.ModelSound` shows that the model's own step and protocol have these
properties.

## Model

| member | source | states |
|---|---|---|
| Settings.DtIsStepDuration | TC_mex.cpp:48-50 | `dt` is 1000 ms divided by the steps per second |
| Settings.DtOverH | TC_mex.cpp:50-51 | with `h*h == dt`, `dt/h == h`, so noise scaled by `1/h` inside a `dt`-term carries `h` (used by `Cortex.NoiseXScaled`) |
| CArith.FilterRest | Cortical_Column.cpp:140-149 | a second-order synaptic filter `y' = x`, `x' = g^2 (drive - y) - 2 g x` is at rest exactly when `x = 0` and `y` equals the drive |
| CArith.Trunc | Stimulation.h:161-176 | the `(int)` cast of a double truncates toward zero: the integer lies within 1 of the value, on the side of 0 |
| CArith.Quotient | TC_mex.cpp:85-88 | C's `/` on `int` truncates toward zero: the remainder lies in `[0, b)` for `a >= 0` and in `(-b, 0]` for `a < 0` |
| CArith.Remainder | TC_mex.cpp:100 | C's `%` takes the sign of the dividend and agrees with the mathematical remainder for `a >= 0` |
| CArith.Ratio | Cortical_Column.cpp:105 | a quotient times its non-zero divisor gives back the dividend |
| Slots.Init | macros.h:38 | `_INIT(x)` has four zero stage slots, and every stage of it reconstructs `x` |
| Slots.StageInput | macros.h:48-68 | stage 1 and every index outside 2..4 read slot 0; stage n in 2..4 reads slot 0 plus the stage weight (1/2, 1/2, 1) times slot n-1 |
| Slots.StageInputReadsOnlyPrior | macros.h:48-51 | the stage-n reconstruction depends on nothing but slots 0 and n-1 |
| Slots.WriteDoesNotDisturbStage | Cortical_Column.cpp:135-149 | writing slot n does not change what stage n reads, so the statements of a stage may re-read their inputs after earlier writes |
| Rk.IncrementWrite | Cortical_Column.cpp:137-149 | a cortical stage writes `dt*f` into slot n and leaves every other slot alone |
| Rk.FullValueWrite | Thalamic_Column.cpp:255-271 | a thalamic stage writes slot N+1, which then exceeds slot 0 by `A[N]*dt*f` plus the noise, and leaves every other slot alone |
| Rk.IncrementCombine | Cortical_Column.cpp:155-167 | the cortical combine changes only slot 0; four equal increments add exactly one increment; non-negative increments never decrease the value |
| Rk.FullValueCombine | Thalamic_Column.cpp:282-298 | the thalamic combine changes only slot 0, and five equal slots leave the value unchanged (the weights sum to 6) |
| Rk.CombinesAgree | Thalamic_Column.cpp:282-298 | given the same value and the same four right-hand-side values, the full-value combine and the increment combine give the same result `y + dt*(f0+2f1+2f2+f3)/6`, whatever the slots held before |
| Rk.IncrementWeights | Cortical_Column.cpp:155 | weights 1,2,2,1 over 6 on `dt`-scaled derivatives give the RK4 sum |
| Rk.FullValueWeights | Thalamic_Column.cpp:282 | weights -3,2,4,2,1 over 6 on the stage values `y + A[n]*dt*k` give the RK4 sum |
| Rk.FullValueWeightsNoisy | Thalamic_Column.cpp:263-290 | noise added to the stage values enters the result with weights 2,4,2,1 over 6 |
| Rk.IncrementChain | Cortical_Column.cpp:133-167 | four cortical stage writes and the combine give the RK4 sum of the four derivatives, whatever the slots held before |
| Rk.FullValueChain | Thalamic_Column.cpp:253-298 | four thalamic stage writes with noise, then the combine, give the RK4 sum plus the weighted noise |
| Rk.StageFractions | Thalamic_Column.h:254 | the thalamic stage fractions `A[0..2]` are the cortical reconstruction weights of stages 2..4 |
| Rk.IncrementStepIsClassic | Cortical_Column.cpp:133-167 | the cortical convention, applied to `y' = f(y)`, is the textbook RK4 step |
| Rk.FullValueStepIsClassic | Thalamic_Column.cpp:253-298 | the thalamic convention, applied to `y' = f(y)`, is the textbook RK4 step |
| Cortex.FromArraysReads | Cortical_Column.h:62-65 | the constructor's parameters are equal exactly when `Param[0..2]` and `Con[2..3]` are equal: it reads those entries and no others |
| Cortex.GetPhi | Cortical_Column.cpp:27-30 | `get_phi(N)` is the stage-N input of `phi_e`: slot 0 plus the stage weight times slot N-1 |
| Cortex.Iee | Cortical_Column.cpp:40-44 | `I_ee` vanishes when `Phi_ee` is 0 or `Ve` is at the AMPA reversal potential |
| Cortex.Iie | Cortical_Column.cpp:47-51 | `I_ie` vanishes when `Phi_ie` is 0 or `Ve` is at the GABA reversal potential |
| Cortex.Iei | Cortical_Column.cpp:53-57 | `I_ei` vanishes when `Phi_ei` is 0 or `Vi` is at the AMPA reversal potential |
| Cortex.Iii | Cortical_Column.cpp:60-64 | `I_ii` vanishes when `Phi_ii` is 0 or `Vi` is at the GABA reversal potential |
| Cortex.ILe | Cortical_Column.cpp:75-79 | the pyramidal leak vanishes exactly at `E_L_e` and is positive above it |
| Cortex.ILi | Cortical_Column.cpp:82-86 | the inhibitory leak vanishes exactly at `E_L_i` and is positive above it |
| Cortex.IKNa | Cortical_Column.cpp:89-94 | `I_KNa` vanishes at the potassium reversal potential, whatever `w_KNa` is |
| Cortex.NaPump | Cortical_Column.cpp:103-107 | `Na_pump` is 0 at `Na_eq` |
| Cortex.NaPumpSign | Cortical_Column.cpp:103-107 | for `Na >= 0`, `Na_pump` is positive above `Na_eq` and negative below it |
| Cortex.PumpActivationIncreasing | Cortical_Column.cpp:105 | `Na^3/(Na^3+3375)` grows strictly on `Na >= 0` |
| Cortex.NoiseXScaled | Cortical_Column.cpp:121 | `dt * noise_xRK(N, M)` is `h` times `B1[N-1] r[2M] + B2[N-1] r[2M+1]` |
| Cortex.StageNoiseScaling | Cortical_Column.cpp:145-146 | scaled by `dt`, the stage noise adds `gamma_e^2 h (B1[N-1] r[0] + B2[N-1] r[1])` to `x_ee` and the same of `r[2]`, `r[3]` to `x_ei`, compared with the noiseless right-hand side |
| Cortex.StepNoise | Cortical_Column.cpp:163-164 | over one step the noise `x_ee` receives, stage noises weighted 1,2,2,1 over 6 plus the final noise, is `h gamma_e^2` times a fixed combination of draws 0 and 1 (draws 2 and 3 for `x_ei`): it scales with `sqrt(dt)` |
| Cortex.NoiseXLinear | Cortical_Column.cpp:118-123 | `noise_xRK` is linear in its two draws, 0 at zero draws, and 0 at stage 1 whatever the draws (`B1[0] = B2[0] = 0`) |
| Cortex.RhsRest | Cortical_Column.cpp:140-149 | each synaptic pair `(Phi, x)` and the pair `(phi_e, y_e)` has both derivatives 0 exactly when `x` is 0 and `Phi` equals its drive: connectivity times firing rate, plus flux and noise for `x_ee`, `x_ei` |
| Cortex.RhsDrive | Cortical_Column.cpp:145-146 | the thalamic flux and the stage noise change only `x_ee` and `x_ei`, each with weight `gamma_e^2` (times `N_te`, `N_ti` for the flux) |
| Cortex.SetRK | Cortical_Column.cpp:133-150 | `set_RK(N)` writes only slot N of each variable, as `dt` times its derivative at the stage-N inputs; draws and parameters unchanged |
| Cortex.SetRKKeepsInputs | Cortical_Column.cpp:135-149 | after the stage's writes every stage-N input is what it was, so the statement-by-statement writes equal one simultaneous update |
| Cortex.SetRKPredicts | Cortical_Column.cpp:133-150 | the next stage's input is the Euler predictor `s0 + w(N+1)*dt*f` from this stage's derivative |
| Cortex.FinalNoiseReadsDraws | Cortical_Column.cpp:163-164 | the combine's noise depends only on draws 0 and 2 |
| Cortex.AddRK | Cortical_Column.cpp:153-172 | `add_RK` changes only slot 0: the weighted increments, plus `gamma_e^2*h*r[0]` on `x_ee` and `gamma_e^2*h*r[2]` on `x_ei` from the current draws; the draws are replaced only afterwards |
| Cortex.Combined | Cortical_Column.cpp:155-167 | one variable's combine changes only slot 0, adding its final noise to the weighted increments |
| Cortex.Initial | Cortical_Column.h:106-118 | the constructed column has `Ve = E_L_e`, `Vi = E_L_i`, `Na = Na_eq`, every other variable 0 and every stage slot 0 |
| Cortex.InitialAtRest | Cortical_Column.h:106-118 | for any rates, flux and draws, the constructed column's stage-1 derivatives of `Vi`, the four `Phi` and `phi_e` are 0, and that of `Ve` is `-I_KNa` |
| Cortex.InitialDrive | Cortical_Column.cpp:139-149 | for any rates, flux and draws, the constructed column's stage-1 derivatives of `Na` and the second-order variables are their drives: `alpha_Na Q_e/tau_Na`, `gamma^2 (N Q + N_t phi)` at the resting voltages |
| Thalamus.FromArraysReads | Thalamic_Column.h:77-80 | the constructor's parameters are equal exactly when `Param[0..1]` and `Con[0..1]` are equal, so the cortex and the thalamus read disjoint parts of the connection array |
| Thalamus.Iet | Thalamic_Column.cpp:85-88 | `I_et` vanishes when `y_et` is 0 or `Vt` is at the AMPA reversal potential |
| Thalamus.Igt | Thalamic_Column.cpp:91-94 | `I_gt` vanishes when `y_rt` is 0 or `Vt` is at the GABA reversal potential |
| Thalamus.Ier | Thalamic_Column.cpp:96-99 | `I_er` vanishes when `y_er` is 0 or `Vr` is at the AMPA reversal potential |
| Thalamus.Igr | Thalamic_Column.cpp:102-105 | `I_gr` vanishes when `y_rr` is 0 or `Vr` is at the GABA reversal potential |
| Thalamus.ILt | Thalamic_Column.cpp:190-193 | the relay leak vanishes exactly at `E_L_t` |
| Thalamus.ILKt | Thalamic_Column.cpp:196-199 | the relay potassium leak vanishes at `E_K`, and only there when `g_LK > 0` |
| Thalamus.ILr | Thalamic_Column.cpp:202-205 | the reticular leak vanishes exactly at `E_L_r` |
| Thalamus.ILKr | Thalamic_Column.cpp:208-211 | the reticular potassium leak vanishes at `E_K`, and only there when `g_LK > 0` |
| Thalamus.ITt | Thalamic_Column.cpp:214-217 | `I_T_t` vanishes when `h_T_t` is 0 or `Vt` is at `E_Ca` |
| Thalamus.ITr | Thalamic_Column.cpp:220-223 | `I_T_r` vanishes when `h_T_r` is 0 or `Vr` is at `E_Ca` |
| Thalamus.Ih | Thalamic_Column.cpp:226-229 | `I_h` vanishes at `E_h` or when the total activation `m_h + g_inc*m_h2` is 0 |
| Thalamus.PH | Thalamic_Column.cpp:170-174 | `P_h` is 0 at `Ca = 0` and lies in `[0, 1)` for `Ca >= 0` |
| Thalamus.ActH | Thalamic_Column.cpp:177-180 | `act_h` is the activation through which `I_h` at slot 0 acts: `I_h = g_h * act_h * (Vt - E_h)` |
| Thalamus.BindingCancels | Thalamic_Column.cpp:270-271 | the calcium binding term cancels in the sum of the `m_h` and `m_h2` derivatives; without calcium `m_h2` only decays |
| Thalamus.RhsRest | Thalamic_Column.cpp:257-267 | each synaptic pair `(y, x)` has both derivatives 0 exactly when `x` is 0 and `y` equals its drive (connectivity times rate, plus the cortical flux for `x_et`, `x_er`); without T-current `Ca` is at rest exactly at `Ca_0` |
| Thalamus.RhsDrive | Thalamic_Column.cpp:263-264 | the cortical flux changes only `x_et` and `x_er`, with weights `gamma_e^2*N_pt` and `gamma_e^2*N_pr` |
| Thalamus.NoiseLinear | Thalamic_Column.cpp:238-244 | `noise_xRK` and `noise_aRK` are linear in the draws; `noise_xRK` is 0 at stages 2 and 3 |
| Thalamus.NoiseTotal | Thalamic_Column.cpp:238-244 | over one step the stage noise of `x_et`, weighted as the combine weights it, plus `noise_aRK(0)` is exactly `gamma_e^2*r[0]`: the second draw cancels |
| Thalamus.StageNoiseReadsDraws | Thalamic_Column.cpp:263 | the stage noise depends only on the first two draws |
| Thalamus.SetRK | Thalamic_Column.cpp:253-272 | `set_RK(N)` writes only slot N+1 as `s0 + A[N]*dt*f` at the slot-N inputs, plus the stage noise on `x_et`; draws, input and parameters unchanged |
| Thalamus.SetRKKeepsInputs | Thalamic_Column.cpp:255-271 | the stage's writes leave its slot-N inputs unchanged |
| Thalamus.AddRK | Thalamic_Column.cpp:281-303 | `add_RK` changes only slot 0, to the full-value combine (plus `noise_aRK(0)` on `x_et`), then every draw becomes the next draw plus the current input |
| Thalamus.Combined | Thalamic_Column.cpp:282-298 | one variable's combine changes only slot 0; only `x_et` receives `noise_aRK(0)` |
| Thalamus.SetInput | Thalamic_Column.h:94 | `set_input` changes the input and nothing else |
| Thalamus.Initial | Thalamic_Column.h:142-158 | the constructed column has `Vt = E_L_t`, `Vr = E_L_r`, `Ca = Ca_0`, every other variable 0, every stage slot 0 and input 0 |
| Ode.ThalamicFluxAtStage | Cortical_Column.cpp:145-146 | the cortex's stage i reads the thalamic flux at the thalamus's own stage-i input: the step's start value plus the stage weight times `dt` times the previous thalamic derivative |
| Ode.CorticalFluxAsWritten | Thalamic_Column.cpp:263-264 | the raw slot `Cortex->y[N]` equals `get_phi(N+1)` at the first stage only; later it is the increment that `get_phi` weights onto the value |
| Ode.CorticalFluxAtStage | Thalamic_Column.cpp:263-264 | at lock-step i the raw slot `y[i-1]` is only `dt` times the previous cortical derivative, while `get_phi(i)` is the cortex's stage-i input, value plus weighted increment |
| Ode.CorticalFluxReadAtStage | Thalamic_Column.cpp:263-264 | the flux lock-step i hands the thalamus is the bare increment as written and the cortical stage-i input under the corrected coupling |
| Ode.ThalamusStageReads | Thalamic_Column.cpp:263-264 | the thalamic derivative of lock-step i is the thalamic right-hand side taken at that flux |
| Ode.CorticalFluxMismatch | Thalamic_Column.cpp:263-264 | the raw slot `Cortex->y[N]` and the stage value agree at the first stage only; a column with flux 1 offers 0 at the second stage |
| Ode.Lockstep | ODE.h:35-38 | index i runs the cortex's stage i, then the thalamus's stage with the updated cortex, which reads the raw slot `Cortex->y[i-1]` as written (`Ode.ThalamusKReads`); draws and input unchanged |
| Ode.ThalamusKReads | Thalamic_Column.cpp:263-264 | the thalamic derivative of lock-step i is taken at the cortical flux the environment's coupling reads from the cortex after its stage i: the raw slot as written, `get_phi(i)` when corrected |
| Ode.After | ODE.h:35-38 | the lock-steps 1..i in order leave the draws and the input unchanged |
| Ode.AfterKeepsValues | ODE.h:35-38 | no lock-step changes slot 0 of any variable of either column, so every stage starts from the step's start values |
| Ode.Step | ODE.h:33-43 | after `ODE` the cortex holds the next draws and the thalamus the next draws shifted by its unchanged input |
| Ode.CortexLockstep | ODE.h:36 | lock-step i writes `dt` times the stage-i derivative into cortical slot i and changes nothing else |
| Ode.ThalamusLockstep | ODE.h:37 | lock-step i writes the full stage value into thalamic slot i and changes nothing else |
| Ode.CortexIndexWrites | ODE.h:35-38 | index i of a step writes cortical slot i with that stage's derivative |
| Ode.ThalamusIndexWrites | ODE.h:35-38 | index i of a step writes thalamic slot i with the stage derivative and the stage noise of the step's own draws |
| Ode.CortexTraceSlots | ODE.h:35-38 | after the four lock-steps every cortical variable holds its start value and the four stage increments |
| Ode.ThalamusTraceSlots | ODE.h:35-38 | after the four lock-steps every thalamic variable holds its start value and the four stage values |
| Ode.CortexCombines | ODE.h:41 | the cortical combine acts on the vector after all four stages, with the final noise of the step's own draws |
| Ode.CortexStepIsRk4 | ODE.h:33-43 | one step advances each cortical variable by the RK4 sum of its four stage derivatives, `x_ee` and `x_ei` also by their final noise |
| Ode.ThalamusStepIsRk4 | ODE.h:33-43 | one step advances each thalamic variable by the RK4 sum of its four stage derivatives, `x_et` also by `gamma_e^2*r[0]` |
| Stimulation.Fresh | Stimulation.h:91-134 | the declared defaults: nothing started, crossed, found or paused, bursts started, `count_stimuli = 1`, no markers |
| Stimulation.Setup | Stimulation.h:153-200 | `setup` converts ms to steps of `dt` and s to steps of `1/res`, truncating each entry first; mode 1 first fires one second after the onset, other modes after entry 7 ms; the result satisfies the invariant |
| Stimulation.MsToSteps | Stimulation.h:167 | `k*res/1000` is exactly `k` ms counted in steps of `dt` |
| Stimulation.Start | Stimulation.h:213-221 | a start sets `stimulation_started` and records the marker `time - onset_correction` only for the first stimulus of an event |
| Stimulation.Periodic | Stimulation.h:211-237 | mode 1 acts only when `time == time_to_stimuli`: it issues `strength` and moves the timer by `time_between_stimuli` within an event, else by `ISI` or the draw, restarting the counter |
| Stimulation.SearchThreshold | Stimulation.h:242-246 | the threshold flag is set exactly when nothing runs, is found or pauses, the onset is over and the voltage is at most the threshold |
| Stimulation.SearchMinimum | Stimulation.h:249-257 | after a crossing, the first rise above the previous voltage clears the crossing and marks the minimum; otherwise the voltage is remembered |
| Stimulation.AwaitStart | Stimulation.h:260-287 | after a minimum the call counter grows until it reaches the start count; the last stimulus of an event consumes the minimum, pauses, restarts the counter and leaves `count_to_start` at 1 |
| Stimulation.Active | Stimulation.h:292-321 | a running stimulus switches off, issuing 0, when `count_duration == duration`, and the counter then ends at 1; bursts issue only 0 or `strength` |
| Stimulation.Pause | Stimulation.h:324-330 | a pause ends when `count_pause == ISI`, the counter then ending at 1; otherwise the counter grows by one |
| Stimulation.ModeStep | Stimulation.h:204-289 | outside modes 1 and 2 nothing changes; a call issues at most `strength`, and only when it starts a stimulus; only mode 2 begins a pause; mode 1 leaves the voltage search alone; markers grow only for a first stimulus |
| Stimulation.PhaseDependent | Stimulation.h:240-288 | mode 2 issues a stimulus only once a minimum is found, at this call or before; with no search under way and outside the window (running, paused or before the onset) nothing happens; the timer is untouched |
| Stimulation.CheckStim | Stimulation.h:202-331 | every value passed to `set_input` is `strength` or 0; the marker list only grows, and only by `time - onset_correction` when the stimulus is the first of its event |
| Stimulation.InputAfter | Thalamic_Column.h:94 | the input after a call is the last value issued, or the old input when none was |
| Stimulation.InputAfterSequential | Thalamic_Column.h:94 | each `set_input` overwrites the previous one: one more call leaves its value, and two batches of calls compose |
| Stimulation.InputStaysBinary | Stimulation.h:202-331 | an input that is 0 or `strength` stays 0 or `strength` |
| Stimulation.CheckStimKeepsInv | Stimulation.h:202-331 | `count_stimuli` stays in `[1, max(1, number_of_stimuli)]`, the crossing and minimum flags are never both set, and outside modes 1 and 2 nothing starts or pauses |
| Stimulation.OtherModesIdle | Stimulation.h:204-208 | outside modes 1 and 2 a call changes no state, issues nothing and records no marker |
| Stimulation.PeriodicSchedule | Stimulation.h:213-235 | in mode 1 the timer moves only when `time` reaches it: by `time_between_stimuli`, by `ISI`, or by a draw within `ISI_range` of `ISI` |
| Stimulation.ThresholdWindow | Stimulation.h:242-257 | outside the search window a call neither crosses the threshold nor finds a new minimum |
| Stimulation.SwitchOff | Stimulation.h:292-303 | when `count_duration == duration` the stimulus stops and the counter ends at 1; without bursts the input ends at 0, the burst flag is set and the burst counter ends at 1 |
| Stimulation.LastStimulusPauses | Stimulation.h:271-287 | after the last stimulus of a mode-2 event the minimum is cleared, `count_stimuli` and `count_to_start` end at 1, and the pause runs unless `count_pause` already equals `ISI` |
| Stimulation.PauseTiming | Stimulation.h:324-330 | a pause ends on the call where `count_pause` reaches `ISI`, the counter ending at 1; before that it goes on and the counter grows by one |
| Driver.Stored | TC_mex.cpp:100-103 | every step stored before step t lies before t, after the onset and on a multiple of `red` |
| Driver.DueStep | TC_mex.cpp:100-102 | step t adds one sample exactly when it is stored, and a stored step is `onset*res + count*red` |
| Driver.StoredClosed | TC_mex.cpp:96-104 | buffer position k receives step `onset*res + k*red`, and the steps below t fill as many positions as there are multiples of `red` in `[onset*res, t)` |
| Driver.SamplesFillBuffers | TC_mex.cpp:85-104 | the `(T+onset)*res` steps store exactly `T*res/red` samples (none for negative `T`), every position inside the buffers |
| Driver.StepRegenerates | ODE.h:33-43 | the model's step gives the cortex the next draws and the thalamus the next draws plus its unchanged input |
| Driver.CallControls | Stimulation.h:202-331 | the model's protocol issues only 0 or `strength`, only grows the markers and keeps the invariant |
| Driver.ModelSound | TC_mex.cpp:98-99 | the model's step and protocol have the properties the loop's proofs assume |
| Driver.Tick | TC_mex.cpp:97-99 | an iteration is the ODE step, then the protocol, then `set_input`; the cortex is the step's result, the thalamus differs from it only in the input, and its draws carry the input from before the call |
| Driver.Run | TC_mex.cpp:97-104 | any number of iterations keep the draw vectors, the configuration and the readiness of the world, and only grow the markers |
| Driver.TickKeepsInvariants | TC_mex.cpp:98-99 | an iteration keeps the protocol invariant and the input at 0 or `strength` |
| Driver.RunKeepsInvariants | TC_mex.cpp:96-104 | so does every run |
| Driver.InputReachesDrawsNextStep | TC_mex.cpp:98-99 | an input set in iteration t reaches the thalamic draws only at the end of iteration t+1 |
| Driver.Simulate | TC_mex.cpp:96-104 | the loop's final world is the run of all iterations; it writes exactly `T*res/red` samples, position k receiving step `onset*res + k*red`, never past the buffers |

## Left out

- Random streams (Random_Stream.h, the cortical and thalamic `MTRands`, the
  protocol's uniform distribution): draws are sequences or arguments the
  caller supplies. The thalamus's draws are the two its `set_RNG` creates.
  The cortex's `set_RNG` is not part of this model; its stages read four
  draws.
- Transcendental functions: the sigmoids, the gating and time-constant
  functions and `w_KNa` are supplied functions about which nothing is
  assumed. `h = sqrt(dt)` and `sqrt(3)` are carried as reals whose squares
  are `dt` and 3.
- Floating point: the model computes over exact reals, with no rounding, no
  infinities and no NaN.
- CArith.Ratio: a division by a vanishing denominator (`Na_pump`, `P_h`,
  the gating time constants) yields 0 instead of an infinity or NaN.
- Integer width: `int` counters and the products `(int) x * res` are
  unbounded; 32-bit overflow for huge parameters is not modelled.
- Stimulation.CheckStim: in mode 1 it requires the draw to lie in
  `[ISI-ISI_range, ISI+ISI_range]`, so a negative `ISI_range` (an empty,
  invalid range for the distribution) cannot be used in mode 1. It also
  requires positive burst length and spacing when bursts are enabled, which
  `setup` guarantees (bursts are never enabled).
- Main.cpp, TC.cpp: separate drivers with wall-clock timing and console output.
- saves.h, Data_Storage.h, `get_data`, `GetMexArray`, `get_marker`: MATLAB
  buffer allocation and copying. The model covers which step's state lands
  at which buffer position, not what is copied.
- Host setup in `mexFunction` (`srand`, `mxGetPr`, `mxGetScalar`): the
  duration, the initial world and the draws are parameters of
  `Driver.Simulate`.
- Ode.CortexStepIsRk4, Ode.ThalamusStepIsRk4: stated per variable, in terms
  of the four stage derivatives the step itself computes. The model does not
  claim that the coupled pair takes the RK4 step of one joint vector field.
  - As written it does not: the thalamus reads the bare cortical increment
    (`Ode.ThalamusStageReads`).
  - Under the corrected coupling both columns read each other at the same
    stage (`Ode.ThalamicFluxAtStage`, `Ode.CorticalFluxAtStage`). The joint
    RK4 statement that this allows is not proved.
- Driver.Run, Driver.Tick: proved for every step and protocol with the
  stated guarantees. The results of `Tick` speak of the step's output and
  not of the protocol's individual transitions, which the `Stimulation`
  lemmas cover.

## Findings

| source | as written | input that shows it | evidently intended | confidence | as-written member | corrected member |
|---|---|---|---|---|---|---|
| Thalamic_Column.cpp:263-264 | the thalamus's stage N reads the cortical flux as the raw slot `Cortex->y[N]`; slots 1..4 of a cortical variable hold `dt`-scaled increments, not values | a cortex whose flux vector is `{1, 0, 0, 0, 0}` offers the thalamus 0 at its second stage instead of 1 | read the cortex's stage value `get_phi(N+1)`, as the cortex reads the thalamus's stage value (Cortical_Column.cpp:145-146) | medium; not executed | Ode.CorticalFluxAsWritten, Ode.CorticalFluxMismatch | Ode.CorticalFlux, Ode.CorticalFluxAtStage |
