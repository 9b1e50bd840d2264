# SRBand: a hysteresis band controller

The repository has one class, `SRBand`. It compares a numeric signal with three
thresholds, `low < target < high`. It runs a three-state machine (IDLE, SET_FALL,
SET_RISE) with a dead zone:

- a sample above `high` enters SET_FALL, and the band stays there until a sample
  reaches the target or goes below it;
- a sample below `low` enters SET_RISE, and the band stays there until a sample
  reaches the target or goes above it.

Two notification flags (`fall_event`, `rise_event`) tell consumers that a
correction is needed. `run` can set a flag but never clears one; a consumer clears
it after waking. Three reconfiguration methods change one threshold each. Each one
checks the full ordering first and either rejects the change or applies it. After
applying it, the status is recomputed silently against the stored sample, but
only when that sample is truthy (present and not 0.0).

The project has three modules:

- `BandSpec` (band_spec.dfy) is the state machine on values. A `Band` record holds
  the thresholds, the optional last sample, the status and the two flags. It has
  one function per operation and lemmas about runs of samples.
- `BandObject` (sr_band.dfy) is the class `SRBand`. Its fields are updated in place,
  as in the source. `Valid()` is the ordering invariant and `State()` is the
  abstract value. Each method is proved to take `State()` to what the matching
  `BandSpec` function computes from the old state.
- `BandScenarios` (band_scenarios.dfy) restates the scenarios of the unit tests
  with their concrete numbers. It also includes a client method that drives the
  object.

`SRBandException` is modelled as `Err(InvalidThresholds)` on values, `ok == false`
on the update methods, and a `null` result from `SRBand.Create`. The thresholds and
the sample are `real`, because the source only compares them.

`update_high(2.8)` from SET_FALL at 2.6 (target 2.0) keeps SET_FALL, because 2.6
is still above the target (`BandScenarios.SilentReconfigurationKeepsFall`).

## Model

| member | source | states |
|---|---|---|
| BandSpec.NextStatus | sr_band.py:48-56 | Under `low < target < high`, the recomputed status is SetFall iff the sample is above high, or the band was SetFall and the sample is above the target. It is SetRise iff the sample is below low, or the band was SetRise and the sample is below the target. Otherwise it is Idle. This gives direct SetRise/SetFall crossings, stickiness in the dead zone, and reset at the target. |
| BandSpec.Init | sr_band.py:26-37 | Construction succeeds iff `low < target < high`, and fails with InvalidThresholds otherwise (equalities included). On success the band is Idle, has no sample, has both flags unset, and is in sync. |
| BandSpec.Run | sr_band.py:39-62 | Triggering defaults to on. The sample is stored and the thresholds are unchanged. The status is the recomputed one. A flag is never cleared. With triggering on, the fall (rise) flag is set iff it was set before or the final status is SetFall (SetRise). With triggering off, both flags are unchanged. When the thresholds are ordered, the status is afterwards in sync with the sample. |
| BandSpec.Reconfigure | sr_band.py:67-69 | The new thresholds are applied. The sample and both flags are unchanged. The status is recomputed against the stored sample only when that sample is truthy (present and not 0.0); otherwise it is kept. |
| BandSpec.UpdateHigh | sr_band.py:64-69 | Accepted iff `low < target < newHigh`, otherwise InvalidThresholds. On success only `high` changes among the thresholds, the ordering holds, and the rest is as Reconfigure says. |
| BandSpec.UpdateLow | sr_band.py:71-76 | Accepted iff `newLow < target < high`, otherwise InvalidThresholds. On success only `low` changes, and the ordering holds. |
| BandSpec.UpdateTarget | sr_band.py:78-83 | Accepted iff `low < newTarget < high`, otherwise InvalidThresholds. On success only `target` changes, and the ordering holds. |
| BandSpec.ClearFall | test.py:155 | The consumer's clear leaves the fall flag unset and changes nothing else. |
| BandSpec.ClearRise | test.py:155 | The consumer's clear leaves the rise flag unset and changes nothing else. |
| BandSpec.RunAll | sr_band.py:39-62 | Over any run of samples: the thresholds are unchanged and the last sample is stored. Flags are only ever raised, and stay unchanged without triggering. When the thresholds are ordered, a band whose status is in sync stays in sync. |
| BandSpec.FallEventHistory | sr_band.py:58-60 | With triggering on, after a run of samples the fall flag is set iff it was set before or some sample of the run left the band in SetFall. |
| BandSpec.RiseEventHistory | sr_band.py:61-62 | With triggering on, after a run of samples the rise flag is set iff it was set before or some sample of the run left the band in SetRise. |
| BandSpec.FallSticksAboveTarget | sr_band.py:48-54 | From SetFall, the band stays SetFall for as long as every sample is above the target, including samples back inside `[low, high]`. |
| BandSpec.RiseSticksBelowTarget | sr_band.py:50-56 | From SetRise, the band stays SetRise for as long as every sample is below the target. |
| BandSpec.IdleWithinBand | sr_band.py:46-62 | From Idle, samples inside `[low, high]` keep the band Idle and raise no flag. |
| BandSpec.ReconfigureIntended | sr_band.py:68-69 | Reconfiguration that recomputes whenever a sample is present, 0.0 included. With a sample, the status is the one recomputed against it under the new thresholds. With no sample, the status is kept. The sample and flags are unchanged, and an in-sync band stays in sync under ordered thresholds. |
| BandSpec.GuardDiffersOnlyAtZero | sr_band.py:68 | The source's truthiness guard and the presence guard give the same band unless the stored sample is exactly 0.0. |
| BandSpec.ZeroSampleLeavesStatusStale | sr_band.py:75-76 | Band target 1, high 2, low -1, sample 0.0 (Idle). `update_low(0.5)` is accepted but leaves the band Idle and out of sync. The intended recompute gives SetRise. |
| BandSpec.IntendedKeepsInSync | sr_band.py:39-83 | Any run of samples followed by an intended reconfiguration leaves the status in sync with the sample and the thresholds. |
| BandObject.SRBand.constructor | sr_band.py:29-37 | Given ordered thresholds, the new object is valid and its state is what Init yields. |
| BandObject.SRBand.Create | sr_band.py:14-37 | Returns null iff Init fails (the raised exception). Otherwise it returns a fresh valid object whose state is Init's band. |
| BandObject.SRBand.Run | sr_band.py:39-62 | The fields change in place exactly as BandSpec.Run says, and the ordering invariant is kept. |
| BandObject.SRBand.UpdateHigh | sr_band.py:64-69 | `ok` iff the candidate ordering holds. On a rejection nothing changes. On success the new state is BandSpec.UpdateHigh of the old one. |
| BandObject.SRBand.UpdateLow | sr_band.py:71-76 | `ok` iff the candidate ordering holds. On a rejection nothing changes. On success the new state is BandSpec.UpdateLow of the old one. |
| BandObject.SRBand.UpdateTarget | sr_band.py:78-83 | `ok` iff the candidate ordering holds. On a rejection nothing changes. On success the new state is BandSpec.UpdateTarget of the old one. |
| BandObject.SRBand.ClearFallEvent | test.py:155 | Only the fall flag changes, to unset. |
| BandObject.SRBand.ClearRiseEvent | test.py:155 | Only the rise flag changes, to unset. |
| BandScenarios.RejectedThresholds | test.py:7-37 | The constructions (2.0, 1.9, 1.6), (2.0, 2.0, 1.6), (2.0, 2.4, 2.1) and (2.0, 2.4, 2.0) are refused. So are `update_high(1.9)`, `update_high(2.0)`, `update_low(2.1)` and `update_low(2.0)` on the band (2.0, 2.4, 1.6). |
| BandScenarios.SetResetHigh | test.py:39-63 | Sample 2.6 gives SetFall with the fall flag set. After the consumer drains the flag, 2.1 keeps SetFall and raises the flag again. After a second drain, 2.0 gives Idle and raises no flag. |
| BandScenarios.SetResetLow | test.py:65-89 | Sample 1.5 gives SetRise with the rise flag set. After the consumer drains the flag, 1.7 keeps SetRise and raises the flag again. After a second drain, 2.1 gives Idle and raises no flag. |
| BandScenarios.RiseToFall | test.py:91-124 | Samples 2.0, 1.5, 2.5 give Idle with no flag, then SetRise, then SetFall directly. |
| BandScenarios.SilentReconfigurationKeepsFall | sr_band.py:64-69 | From SetFall at 2.6, `update_high(2.8)` keeps SetFall, because 2.6 is still above the target. The fall flag stays set. |
| BandScenarios.SilentReconfigurationRaisesNoFlag | sr_band.py:64-69 | From Idle at 2.3, `update_high(2.2)` moves the band to SetFall without setting the fall flag. |
| BandScenarios.ConsumersWake | test.py:151-156 | One wake-up of each consumer: a set flag is cleared and its count goes up by one. An unset flag leaves its count alone. Nothing else in the object changes. |
| BandScenarios.RiseToFallOnObject | test.py:91-124 | On the object, samples 2.0, 1.5, 2.5 with the consumers waking after each give the statuses Idle, SetRise, SetFall. The fall counts are 0, 0, 1 and the rise counts 0, 1, 1. |

## Left out

- The wait/wake side of `asyncio.Event` and the coroutine scheduling of the tests (sr_band.py:1, 36-37; test.py:40-63). This is cooperative concurrency. Each event is modelled only as a boolean flag, which a consumer clears with `ClearFallEvent` or `ClearRiseEvent`.
- The unit-test driver code (unittest, Counter, the consumer loops, `asyncio.run`). Its concrete scenarios are stated as lemmas in `BandScenarios`.
- Floating-point semantics. The source only compares values, so the model uses `real`. NaN and infinities are not modelled.
- The exception's message text. Only the failure itself is modelled.

## Findings

| source | as written | input that shows it | evidently intended | confidence | as-written member | corrected member |
|---|---|---|---|---|---|---|
| sr_band.py:68 | `if self.value:` skips the recompute when the stored sample is 0.0, as well as when there is none (the same guard is at lines 75 and 82) | band (target 1, high 2, low -1), `run(0.0)`, then `update_low(0.5)`: the status stays IDLE although 0.0 < low | recompute whenever a sample has been observed, so that the status stays in sync with the thresholds | high; not executed | BandSpec.ZeroSampleLeavesStatusStale | BandSpec.ReconfigureIntended |

The class `SRBand` keeps the source's guard, because it models the code as
written. `ReconfigureIntended` and `IntendedKeepsInSync` give the corrected
behaviour. `GuardDiffersOnlyAtZero` shows that the two differ only on a stored
sample of 0.0.
