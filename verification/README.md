# Lightsaber interaction state machine

A Dafny model of the interaction logic that turns a phone into a toy
lightsaber. Three React components repeat the same logic with different
constants: `LightsaberV2`, `Lightsaber` (which adds a debug panel and a
separate "enable motion sensor" button) and `LightsaberV3` (which has five
swing sounds picked at random). The model has one parametrised state
machine with three parts:

- the **permission gate** (`requestMotionPermission`): `hasPermission`
  becomes true exactly when the prompt answers `"granted"`, stays as it was
  when the prompt rejects, and becomes true on platforms with no prompt;
- the **power toggle** (`handleClick`): it asks for permission when none is
  held, plays exactly one on/off sound chosen by the prior state, and flips
  `isOn`;
- the **motion handler** (`handleMotion`): it runs only while a listener is
  attached, and a listener is attached exactly while permission is held.
  Samples are dropped while the saber is off or inside the cooldown. A swing
  plays when the 3-axis magnitude (missing axes read as 0) is strictly above
  the threshold, and that swing sets the cooldown timestamp to `now`.

| component | cooldown (ms) | threshold | swing sounds | debug panel / button |
|---|---|---|---|---|
| `Saber.LightsaberV2` | 500 | 15 | 1 | no |
| `Saber.Lightsaber` | 500 | 15 | 1 | yes |
| `Saber.LightsaberV3` | 250 | 8 | 5, random | no |

Each browser callback is one atomic `Saber.Step(config, state, event)`,
which returns the next state and the effects it requested (`Play(sound)`
and `RequestPermission`). `Traces.Run` folds a sequence of events.

Some details of the React behaviour are modelled explicitly. The motion
`useEffect` depends on `[isOn, playSwing, hasPermission]` in
`LightsaberV2` and `Lightsaber`, and on `[isOn, swingSounds, hasPermission]`
in `LightsaberV3`. The model tracks the two state dependencies: whenever
`isOn` or `hasPermission` actually changes, the old listener is removed and a new closure is made
with `lastSwing = 0`. That closure is attached only if permission is held
(`Saber.Commit`). A `setState` call that keeps the same value does not
re-run the effect, so a rejected prompt keeps the listener and its
timestamp. Because of this reset, switching off and on defeats the
cooldown (`Scenarios.ReigniteSkipsCooldown`).

The threshold test `sqrt(x²+y²+z²) > T` is stated without a square root
as `x²+y²+z² > T²` over the reals. `Motion.ExceedsIffMagnitudeAbove`
proves that the two tests agree for every non-negative threshold. The
random variant is `floor(r · n)` for a draw `r` in [0, 1).
`Motion.VariantPreimage` shows that each variant is picked by an interval
of width 1/n.

Modules: `Wrappers` (Option), `Motion` (readings, threshold, variant
choice), `Saber` (state, events, step), `Traces` (runs and their
properties), `Scenarios` (concrete runs).

## Model

| member | source | states |
|---|---|---|
| Motion.MagnitudeSquared | app/components/LightsaberV2.tsx:73-77 | the squared magnitude is non-negative, and a reading with every axis missing has magnitude 0 |
| Motion.MissingAxisReadsZero | app/components/LightsaberV2.tsx:74-76 | each missing axis, on its own and whatever the other axes hold, contributes exactly what an axis reading 0 does |
| Motion.ExceedsIffMagnitudeAbove | app/components/LightsaberV2.tsx:73-79 | for a non-negative threshold, the squared comparison holds exactly when the real magnitude is strictly above the threshold, in both directions |
| Motion.MagnitudeOfThreeFourMissing | app/components/LightsaberV3.tsx:57-63 | a reading (3, 4, missing) has magnitude 5: it does not exceed 5 but does exceed 4.9 |
| Motion.VariantIndex | app/components/LightsaberV3.tsx:64-65 | `floor(random * swingSounds.length)` always indexes one of the swing sounds |
| Motion.VariantPreimage | app/components/LightsaberV3.tsx:64-64 | variant i is picked exactly by draws in [i/n, (i+1)/n), so every variant has an interval of the same width (uniform choice) |
| Motion.SingleVariantAlwaysFirst | app/components/LightsaberV2.tsx:13-13 | with one swing sound every draw picks that sound |
| Saber.Commit | app/components/LightsaberV2.tsx:86-93 | when `isOn` or `hasPermission` changes, the listener is re-attached exactly when permitted and its `lastSwing` restarts at 0; otherwise the listener and timestamp survive |
| Saber.Toggle | app/components/LightsaberV2.tsx:95-106 | a click flips `isOn`, plays exactly one sound (off if it was on, on if it was off), requests permission exactly when none is held, and leaves permission unchanged |
| Saber.PressEnable | app/components/Lightsaber.tsx:113-120 | the enable button requests permission exactly when it is shown (permission missing) and changes nothing else |
| Saber.Resolve | app/components/Lightsaber.tsx:19-45 | an answer grants exactly when it is `"granted"`, a rejection keeps the permission, no prompt API grants; the debug status becomes the answer, `"error"` or `"granted (default)"`; the power never changes |
| Saber.OnSample | app/components/Lightsaber.tsx:51-74 | a firing sample plays one swing and sets `lastSwing = now`; any other sample plays nothing and keeps `lastSwing`; the debug time is set to `now` for every sample that passes the gate with an acceleration |
| Saber.Step | app/components/LightsaberV3.tsx:47-91 | each event plays at most one sound: a click its power sound, a firing sample one swing, anything else none; only clicks change the power; a permission request is issued only while permission is missing |
| Traces.StepKeepsConsistent | app/components/LightsaberV2.tsx:86-93 | every step keeps "listener attached iff permission held" |
| Traces.RunKeepsConsistent | app/components/LightsaberV2.tsx:86-93 | every run keeps "listener attached iff permission held" and, without a debug panel, the untouched debug fields |
| Traces.ListenerIffPermitted | app/components/LightsaberV2.tsx:86-88 | in every state reachable from mount, the motion listener is attached exactly when permission is held |
| Traces.PowerSoundsAlternate | app/components/LightsaberV2.tsx:100-105 | over any run there is exactly one power sound per click, and they alternate, starting with the one the initial power selects |
| Traces.PowerFlipsPerClick | app/components/LightsaberV2.tsx:105-105 | after any run the power is the initial power flipped once per click |
| Traces.SwingTimesMatchSwings | app/components/LightsaberV3.tsx:63-67 | a run records one firing time per swing sound played, and every swing names one of the configured variants |
| Traces.SwingsSpacedByCooldown | app/components/LightsaberV2.tsx:64-82 | during one listener's lifetime (no step changes `isOn` or `hasPermission`), swings are at least the cooldown apart, the first at least the cooldown after the listener's timestamp |
| Traces.CooldownTimestampMonotone | app/components/LightsaberV2.tsx:79-82 | during one listener's lifetime, the cooldown timestamp never decreases |
| Traces.NoSwingWhileOff | app/components/LightsaberV2.tsx:69-69 | a saber that is off and never clicked plays no swing, whatever the samples |
| Traces.NoSwingWithoutGrant | app/components/LightsaberV2.tsx:86-88 | until a permission outcome grants, no swing is played and permission stays missing |
| Traces.IgnitionResetsCooldown | app/components/LightsaberV2.tsx:63-69 | after igniting a permitted saber, the first sample above the threshold fires whatever the previous swing time, once `now` is at least the cooldown |
| Traces.ClickWithoutPrompt | app/components/LightsaberV2.tsx:45-61 | on a platform with no prompt, a click and its immediate implicit grant end in one batched update: power flipped, permission held, fresh listener, one power sound |
| Traces.ResolveIdempotent | app/components/LightsaberV2.tsx:53-59 | settling the permission twice with the same outcome equals settling it once; in particular a repeated grant keeps the listener and its cooldown timestamp |
| Traces.QuietSampleChangesNothing | app/components/LightsaberV2.tsx:67-84 | without a debug panel, a sample that does not fire (off, in cooldown, no acceleration, at or below the threshold, no listener) changes no state and requests nothing |
| Scenarios.MountIgniteGrant | app/components/LightsaberV2.tsx:95-106 | from mount, a click then a granted prompt ends ignited and listening, after one permission request and the on sound |
| Scenarios.CooldownScenario | app/components/LightsaberV3.tsx:49-67 | with cooldown 250 and threshold 8, magnitude-10 samples at 1000, 1100 and 1300 ms swing at 1000 and 1300 only |
| Scenarios.FreshListenerDropsEarlySample | app/components/LightsaberV3.tsx:48-53 | a fresh listener has `lastSwing = 0`, so with cooldown 250 a strong sample at time 0 is dropped and the same sample at time 250 fires |
| Scenarios.ThresholdIsStrict | app/components/LightsaberV2.tsx:79-79 | a sample whose magnitude equals the threshold never swings, on whichever axis it lies |
| Scenarios.DebugTimestampDiffers | app/components/Lightsaber.tsx:63-71 | a weak sample moves the debug "last swing" time but not the cooldown timestamp |
| Scenarios.ReigniteSkipsCooldown | app/components/LightsaberV2.tsx:63-93 | switching off and on between two swings lets the second fire 1 ms after the first, despite the 500 ms cooldown |

## Left out

- Rendering: the JSX, colour tables, colour selection buttons, blade animation and hilt markup are presentation only.
- Sound playback: `useSound` and the sound file paths belong to an outside library. A sound is only an emitted identifier (`PowerOn`/`PowerOff` stand for on/off and activate/deactivate).
- Platform calls: `DeviceMotionEvent.requestPermission`, `addEventListener`, `Date.now` and `Math.random` are browser facilities. They become event inputs: the outcome, `now` and the draw `r`.
- Asynchrony: a permission outcome is a separate event and is not tied to an earlier request. The model therefore allows more runs than the browser can produce, and every property above still holds for the runs the browser produces.
- The synchronous no-prompt branch: it runs inside the click. The model splits it into a click and an immediate `NoPromptApi` outcome, and `Traces.ClickWithoutPrompt` shows that the pair reaches the batched state.
- Effect re-runs caused by the third dependency. In `LightsaberV2` and `Lightsaber`, `playSwing` gets a new identity when the swing sound finishes loading. In `LightsaberV3`, `swingSounds` is a fresh array on every render. Either change re-runs the motion effect and resets `lastSwing` to 0. The model does not include these re-runs because they depend on the sound library's loading and on React's render schedule.
- Unmounting the component, which removes the listener.
- Floating point: magnitudes are exact reals and timestamps are unbounded integers. `Math.sqrt` is replaced by the proved-equivalent squared comparison.
- The debug panel's acceleration readout: it shows `sqrt` rounded to two decimals, so it is floating-point display only.
- `console.error` logging.
- Hit classification: none of the three components classifies hits, so none is modelled.
- A rejected permission promise leaves `hasPermission` unchanged (`LightsaberV2.tsx:55-57`). Every click while permission is missing asks again (`LightsaberV2.tsx:96-98`). Both are modelled as written.
