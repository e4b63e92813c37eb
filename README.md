# openpifpaf learning-rate multiplier in Dafny

This project models `LearningRateLambda`, the per-step learning-rate
multiplier that openpifpaf's training set-up passes to its scheduler. The
object is configured once with a burn-in duration, a decay schedule (a list
of step indices), a decay factor, a decay duration, a burn-in start and a
burn-in factor. It is then called once per optimizer step. Each call
multiplies together:

- the burn-in factor in full at or before the burn-in start;
- on the burn-in ramp, `burn_in_factor ** (1 - (step - start) / duration)`;
- for every schedule entry `d`, the decay factor in full once
  `step >= d + decay_duration`, `decay_factor ** ((step - d) / decay_duration)`
  while `step > d`, and nothing before.

Dafny has no real exponentiation, so a multiplier is represented by its two
exponents, `Exponents(burnIn, decay)`, with

    lambda == burn_in_factor ^ burnIn * decay_factor ^ decay

Each `lambda_ *= b ** x` of the source adds `x` to the exponent of `b`. Each
`lambda_ *= b` adds 1. The initial `lambda_ = 1.0` is `Exponents(0, 0)`.

Everything is in one module, `Optimize` (`optimize.dfy`):

- `Config` is a value holding the six configuration fields.
- `BurnInExponent`, `DecayEntryExponent`, `DecayExponent` and `Multiplier` are
  the pure specification. The decay exponent is summed over the schedule
  in schedule order.
- `LearningRateLambda` is the class. Its constructor stores the six fields.
  The last four are `nameonly` parameters, with the source's keyword
  defaults 0.1, 1.0, 0 and 0.01. Its `Call` method is the source's loop and
  is proved equal to `Multiplier` of the stored configuration. `Call` has
  no `modifies` clause, so Dafny checks that it changes no field.
- Lemmas cover the phase boundaries, bounds, monotonicity, order
  independence, compounding of repeated entries and concrete schedules.

The step index is an `int`, as the scheduler passes it. The configuration
values are `real`, because epochs times batches per epoch need not be
whole. No function has a precondition. Every division the source performs
is proved well-defined from the branch conditions alone.

A zero (or negative) decay duration follows the code. The first test,
`step >= d + duration`, already catches `step == d`. So the entry is fully
applied from step `d` on, and the ramp branch is never reached. A natural
reading of the design, where the ramp starts at `d` for every duration,
would give factor 1 at `step == d`. The code does not, and
`DecayEntryZeroDuration` and `ExampleZeroDuration` state what the code does.

## Model

| member | source | states |
|---|---|---|
| `Optimize.BurnInExponent` | openpifpaf/optimize.py:57-63 | the burn-in exponent lies in [0, 1] for every configuration and step |
| `Optimize.DecayEntryExponent` | openpifpaf/optimize.py:66-71 | one schedule entry's decay exponent lies in [0, 1] for every entry, duration and step |
| `Optimize.DecayExponent` | openpifpaf/optimize.py:65-71 | the total decay exponent lies between 0 and the schedule length |
| `Optimize.Multiplier` | openpifpaf/optimize.py:54-73 | the multiplier's burn-in exponent is in [0, 1] and its decay exponent between 0 and the schedule length |
| `Optimize.LearningRateLambda.constructor` | openpifpaf/optimize.py:42-52 | the stored configuration is exactly the six arguments |
| `Optimize.LearningRateLambda.Call` | openpifpaf/optimize.py:54-73 | the loop-based call returns `Multiplier` of the stored configuration, and it changes no field |
| `Optimize.DefaultsAtStart` | openpifpaf/optimize.py:42-46 | an object built with only the burn-in duration and schedule gets factors 0.01 and 0.1, and at step 0 the full burn-in factor applies |
| `Optimize.BurnInFlatPhase` | openpifpaf/optimize.py:57-58 | at or before the burn-in start the burn-in exponent is 1, whatever the duration |
| `Optimize.BurnInPhasesExclusive` | openpifpaf/optimize.py:57-63 | the flat condition and the ramp condition never hold for the same step |
| `Optimize.BurnInAfterEnd` | openpifpaf/optimize.py:57-63 | past the start and at or after the start plus the duration, the burn-in exponent is 0 |
| `Optimize.BurnInRamp` | openpifpaf/optimize.py:60-63 | on the ramp the duration is positive, the exponent is strictly in (0, 1), and exponent times duration equals the steps left to the ramp's end |
| `Optimize.BurnInMonotone` | openpifpaf/optimize.py:57-63 | the burn-in exponent never increases as the step increases |
| `Optimize.DecayEntryComplete` | openpifpaf/optimize.py:66-67 | at or after `d + duration` the entry's exponent is 1 |
| `Optimize.DecayEntryNotStarted` | openpifpaf/optimize.py:66-71 | at or before `d`, and before `d + duration`, the entry's exponent is 0 |
| `Optimize.DecayEntryRamp` | openpifpaf/optimize.py:68-71 | strictly inside the ramp the duration is positive, the exponent is strictly in (0, 1), and exponent times duration equals the steps since `d` |
| `Optimize.DecayEntryZeroDuration` | openpifpaf/optimize.py:66-71 | with duration 0 the entry's exponent is 1 exactly when `step >= d`, else 0, and no division happens |
| `Optimize.DecayEntryMonotone` | openpifpaf/optimize.py:66-71 | one entry's exponent never decreases as the step increases |
| `Optimize.DecayConcat` | openpifpaf/optimize.py:65-71 | the decay exponent of a concatenated schedule is the sum of the parts' exponents |
| `Optimize.DecayRemoveAt` | openpifpaf/optimize.py:65-71 | removing one entry from the schedule removes exactly that entry's exponent |
| `Optimize.DecayOrderIndependent` | openpifpaf/optimize.py:65-67 | two schedules with the same entries, in any order and with the same repetitions, give the same decay exponent |
| `Optimize.DecayAllComplete` | openpifpaf/optimize.py:65-67 | when every entry is fully applied the decay exponent equals the schedule length |
| `Optimize.DecayNoneStarted` | openpifpaf/optimize.py:65-71 | when no entry has started the decay exponent is 0, and so always for an empty schedule |
| `Optimize.DecaySettled` | openpifpaf/optimize.py:65-71 | when no entry is inside its ramp the decay exponent is the number of fully applied entries |
| `Optimize.DecayMonotone` | openpifpaf/optimize.py:65-71 | the total decay exponent never decreases as the step increases |
| `Optimize.MultiplierMonotone` | openpifpaf/optimize.py:57-71 | as the step increases the burn-in exponent never increases and the decay exponent never decreases |
| `Optimize.MultiplierSettled` | openpifpaf/optimize.py:54-73 | after burn-in, with no entry inside its ramp, the multiplier is the decay factor raised to the number of fully applied entries |
| `Optimize.MultiplierOrderIndependent` | openpifpaf/optimize.py:65-67 | reordering the schedule does not change the multiplier |
| `Optimize.ExampleSchedule` | openpifpaf/optimize.py:54-73 | concrete exponents for a 200-step burn-in from 0 and one 100-step decay at 1000, at steps 0, 100, 200, 999, 1050, 1100 and 5000 |
| `Optimize.ExampleDuplicateEntries` | openpifpaf/optimize.py:65-71 | the schedule `[500, 500]` gives decay exponent 1 half-way through both ramps and 2 once both are complete |
| `Optimize.ExampleZeroDuration` | openpifpaf/optimize.py:66-71 | with duration 0 an entry at 500 gives exponent 0 at step 499 and 1 at steps 500 and 501 |

## Left out

- `cli` (openpifpaf/optimize.py:7-38): command-line option registration only.
- `factory_optimizer` (openpifpaf/optimize.py:76-93): picks a torch optimizer and logs the choice. These are calls into a library that is not part of this model.
- `factory_lrscheduler` (openpifpaf/optimize.py:96-105): wraps the object in torch's scheduler. It also multiplies the epoch-unit options by the batches per epoch. The model takes the configuration already converted to steps.
- Floating-point arithmetic: `**` with fractional exponents, rounding and the order of the floating-point products are not modelled. The model computes the exact real exponents.
- `MultiplierMonotone`: states monotonicity of the exponents, not of the multiplier's value. Going from "the exponent of a factor in (0, 1] rises" to "the multiplier falls" needs real exponentiation, which Dafny does not provide.
- Logging and torch tensor handling.
