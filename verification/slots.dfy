/** The five-slot state vector of every dynamical variable (`_INIT` in
    macros.h) and the per-stage reconstruction of a variable's input value
    (`_SWITCH` with `_SET_RK1.._SET_RK4`). */
module Slots {

  /** Slot 0 is the authoritative value between steps; slots 1..4 hold what
      stages 1..4 wrote (increments in the cortex, full values in the
      thalamus). */
  datatype Slots = Slots(s0: real, s1: real, s2: real, s3: real, s4: real)

  /** `v[k]`; indices outside 0..4 would overrun the vector. */
  function Get(v: Slots, k: int): real
    requires 0 <= k <= 4
  {
    match k
    case 0 => v.s0
    case 1 => v.s1
    case 2 => v.s2
    case 3 => v.s3
    case 4 => v.s4
  }

  /** `v[k] = x`. */
  function With(v: Slots, k: int, x: real): (r: Slots)
    requires 0 <= k <= 4
    ensures Get(r, k) == x
    ensures SameExcept(r, v, k)
  {
    match k
    case 0 => v.(s0 := x)
    case 1 => v.(s1 := x)
    case 2 => v.(s2 := x)
    case 3 => v.(s3 := x)
    case 4 => v.(s4 := x)
  }

  /** Every slot other than `k` is the same in `v` and `w`. */
  predicate SameExcept(v: Slots, w: Slots, k: int) {
    && (k != 0 ==> v.s0 == w.s0)
    && (k != 1 ==> v.s1 == w.s1)
    && (k != 2 ==> v.s2 == w.s2)
    && (k != 3 ==> v.s3 == w.s3)
    && (k != 4 ==> v.s4 == w.s4)
  }

  /** Two vectors that agree with a third outside slot `k` and with each
      other at slot `k` are equal. */
  lemma SameExceptEqual(v: Slots, w: Slots, u: Slots, k: int)
    requires 0 <= k <= 4 && SameExcept(v, u, k) && SameExcept(w, u, k) && Get(v, k) == Get(w, k)
    ensures v == w
  {
  }

  /** `_INIT(x)`: the value `x` followed by four zero stage slots. */
  function Init(x: real): (v: Slots)
    ensures forall k | 1 <= k <= 4 :: Get(v, k) == 0.0
    ensures forall n :: StageInput(v, n) == x
  {
    Slots(x, 0.0, 0.0, 0.0, 0.0)
  }

  /** Weight with which stage `n` adds the previous stage's slot to slot 0:
      the table 0, 1/2, 1/2, 1 for stages 1..4. */
  function StageWeight(n: int): real
    requires 1 <= n <= 4
  {
    [0.0, 0.5, 0.5, 1.0][n - 1]
  }

  /** The input value of a variable at stage `n` (`var_x` after `_SWITCH`):
      stage 1 and every index outside 2..4 (the `default` branch) read slot 0;
      stage n in 2..4 reads slot 0 plus the weighted slot n-1. */
  function StageInput(v: Slots, n: int): (r: real)
    ensures 1 <= n <= 4 ==> r == v.s0 + StageWeight(n) * Get(v, n - 1)
    ensures !(2 <= n <= 4) ==> r == v.s0
  {
    match n
    case 2 => v.s0 + v.s1 * 0.5
    case 3 => v.s0 + v.s2 * 0.5
    case 4 => v.s0 + v.s3
    case _ => v.s0
  }

  /** The reconstruction at stage `n` reads nothing but slot 0 and slot n-1. */
  lemma StageInputReadsOnlyPrior(v: Slots, w: Slots, n: int)
    requires 1 <= n <= 4
    requires v.s0 == w.s0 && Get(v, n - 1) == Get(w, n - 1)
    ensures StageInput(v, n) == StageInput(w, n)
  {
  }

  /** Writing slot `n` does not change what stage `n` reads, so a stage may
      write its own slot while still reading its inputs. */
  lemma WriteDoesNotDisturbStage(v: Slots, n: int, x: real)
    requires 1 <= n <= 4
    ensures StageInput(With(v, n, x), n) == StageInput(v, n)
  {
    StageInputReadsOnlyPrior(With(v, n, x), v, n);
  }
}
