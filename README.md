# Integration parameters of a rigid-body physics engine

This project models `IntegrationParameters`, the per-step settings record of the Rapier
physics engine, and proves properties of the model in Dafny. The record holds the step
length `dt` and the 18 other settings each stage of a simulation step reads: error
reduction parameters, solver iteration counts, CCD (continuous collision detection)
limits and flags, and the minimum island size.

The model lives in `integration_parameters.dfy`, module `Dynamics`:

- `Params` is the record's value, which is what `#[derive(Clone)]` copies. Its functions
  are `New` (the `new` constructor) and `DefaultParams` (the `Default` impl).
- `GuardedInverse` is the reciprocal with a zero guard. It is the body of `inv_dt`, and
  `set_inv_dt` stores it of the frequency it is given.
- `Mutation`, `Apply` and `Run` describe setter calls on record values. They specify the
  setters, and they state what holds after any sequence of setter calls.
- The class `IntegrationParameters` is a record held in a mutable place. It has the same
  fields. `Dt` and `InvDt` are functions that read the record. `SetDt` and `SetInvDt` are
  methods that modify it, each specified by `Apply`. `Clone` gives an independent copy.
- `ClientScenarios` shows what a caller can conclude from these contracts alone: the
  default's 60 Hz, `set_dt(0.01)` giving 100 Hz, `set_inv_dt(240)` giving `1/240`, a clone and
  its original each unaffected by changes to the other, and `new` pinning the island size.

`f32` is modelled as `real` and `usize` as `nat`. Reciprocals are therefore exact:
`dt * inv_dt == 1` and `1/(1/f) == f` hold without rounding.

## Model

| member | source | states |
|---|---|---|
| `Dynamics.New` | src/dynamics/integration_parameters.rs:89-137 | every field equals its own argument, although the argument order differs from the field order, and `minIslandSize` is 128 whatever the arguments |
| `Dynamics.NewBuildsExactlyPinnedRecords` | src/dynamics/integration_parameters.rs:110-136 | `new` applied to a record's own fields gives that record back if and only if the record's island size is 128, so 128 is the one field `new` does not let callers choose |
| `Dynamics.DefaultParams` | src/dynamics/integration_parameters.rs:177-206 | the default of every field, as documented: `dt = 1/60`, `erp = joint_erp = 0.2`, and so on down to three `false` flags; as consequences, `inv_dt` of the default is 60 and the default lies in the documented ranges |
| `Dynamics.GuardedInverse` | src/dynamics/integration_parameters.rs:149-155 | zero exactly when its argument is zero; otherwise its product with the argument is 1; negative exactly when its argument is negative |
| `Dynamics.GuardedInverseInvolutive` | src/dynamics/integration_parameters.rs:149-174 | the guarded reciprocal of the guarded reciprocal is the original value, zero included |
| `Dynamics.Apply` | src/dynamics/integration_parameters.rs:159-174 | one setter call changes only `dt`; after `set_dt(x)`, `dt` is `x`; after `set_inv_dt(f)`, `inv_dt` is `f`, a zero `f` gives exactly zero, and `dt` is non-negative exactly when `f` is; `set_dt` needs a non-negative argument |
| `Dynamics.SetInvDtOfInvDtIsNoOp` | src/dynamics/integration_parameters.rs:149-174 | `set_inv_dt(inv_dt())` leaves the whole record unchanged |
| `Dynamics.Run` | src/dynamics/integration_parameters.rs:159-174 | any sequence of setter calls changes no field but `dt` |
| `Dynamics.RunLastCallWins` | src/dynamics/integration_parameters.rs:159-174 | after a non-empty sequence of setter calls the record is what the last call alone makes of the starting record |
| `Dynamics.RunKeepsStepLengthNonNegative` | src/dynamics/integration_parameters.rs:159-174 | a non-negative `dt` stays non-negative through any sequence of calls in which every frequency given to `set_inv_dt` is non-negative |
| `Dynamics.NegativeFrequencyLeavesNegativeStepLength` | src/dynamics/integration_parameters.rs:168-174 | whatever came before, ending with `set_inv_dt(f)` for a negative `f` leaves a negative `dt`, outside the documented range that `set_dt` enforces |
| `Dynamics.IntegrationParameters.constructor` | src/dynamics/integration_parameters.rs:4-85 | a record placed in a mutable location holds exactly the given value |
| `Dynamics.IntegrationParameters.Clone` | src/dynamics/integration_parameters.rs:2 | the clone is a fresh record with an equal value, so later changes to one leave the other alone |
| `Dynamics.IntegrationParameters.Dt` | src/dynamics/integration_parameters.rs:141-143 | the accessor returns the step length of the record's current value |
| `Dynamics.IntegrationParameters.InvDt` | src/dynamics/integration_parameters.rs:149-155 | zero exactly when `dt` is zero; otherwise its product with `dt` is 1; negative exactly when `dt` is negative |
| `Dynamics.IntegrationParameters.SetDt` | src/dynamics/integration_parameters.rs:159-162 | requires a non-negative argument; the new value is the old one with only `dt` replaced; afterwards `Dt()` returns the argument, and `InvDt()` is zero when the argument is zero |
| `Dynamics.IntegrationParameters.SetInvDt` | src/dynamics/integration_parameters.rs:168-174 | accepts any frequency; the new value is the old one with only `dt` replaced; afterwards `InvDt()` returns the frequency, and a zero frequency gives a `dt` of exactly zero |

## Left out

- IEEE-754 `f32` arithmetic: the scalars are exact reals, so `1/60` is an exact rational and no rounding is modelled. The model also leaves out infinities and NaN, and it leaves out `1/x` overflowing to infinity (as for a subnormal `dt`). In the code, `set_dt(inf)` passes the sign assert and `inv_dt` then returns `0` for a non-zero `dt`, and `set_inv_dt(inf)` stores `0`. So the proved laws (`InvDt` zero exactly when `dt` is, `dt * inv_dt == 1`, `Apply`'s `inv_dt` after `set_inv_dt`, `GuardedInverseInvolutive`, `SetInvDtOfInvDtIsNoOp`) hold in the code only while `dt`, the frequency and their reciprocals are finite.
- `usize` width: the counts are unbounded naturals. No operation does arithmetic on them.
- The `serde-serialize` derive of `Serialize`/`Deserialize` at line 3: it is generated library code with no visible body.
- The commented-out `multithreading_enabled` field and its constructor argument: they are not live code.
- The documented `[0, 1]` ranges of `erp`, `joint_erp` and `warmstart_coeff`: no operation enforces them, so the model adds no precondition for them. `InDocumentedRanges` only names them.
- `set_inv_dt` does no sign check, and neither does the model. A negative frequency thus yields the negative `dt` that `set_dt` refuses; the model keeps this behaviour of the code. `NegativeFrequencyLeavesNegativeStepLength` shows the consequence.
- The panic of `set_dt` on a negative argument is a precondition here, not a modelled error path, because it is a fatal contract violation with no recovery.
- The consumers of these settings (the solvers, CCD, broad phase, island partitioner) are not part of this model.
