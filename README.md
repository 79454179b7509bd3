# AudioFocus3D in Dafny

This project models the two Unity components of the AudioFocus3D
repository. Both duck the volume of audio sources depending on whether the
camera can see them.

- `AudioFocus3D` (module `AudioFocus`, file `audio_focus.dfy`).
  - `Start` snapshots every audio source's volume as its baseline `initialVol`.
  - Every 100 ms `FindFOVAudioSources` walks the sources in array order.
  - A source that is outside the camera's field of view and not fully 2D
    (spatial blend not 0) is ramped toward `initialVol[i] * volAtt`.
  - Every other source is ramped back toward `initialVol[i]`.
- `AudioFocus3DPriority` (module `AudioFocusPriority`, file
  `audio_focus_priority.dfy`).
  - `Start` also lowers `prioritySound`, which starts at 256, to the smallest
    priority among the sources.
  - The sources with that priority are the arbiters.
  - On an enabled tick an arbiter only overwrites the persistent flag
    `soundOnFOV` with its own visibility.
  - Every other source follows the flag as it stands when that source is
    visited: baseline if true, ducked baseline if false.
  - With `onOffSwitch` off, every source ramps back to its baseline.
- The shared numeric core (module `Attenuation`, file `attenuation.dfy`).
  - `Mathf.Lerp` with its clamped parameter.
  - The per-tick ramp `Lerp(startVol, endVol, rampSpeed * dt)` with
    `rampSpeed = 200`.
  - The ducked level `initialVol * volAtt`.
  - The view test `angle > fieldOfView`.

Each component is a class over parallel arrays indexed by source:
- `volume`, written in place.
- `spatialBlend` or `priority`, read only. `spatialBlend[i]` stands for
  the blend the tick actually reads, that of the first AudioSource on
  source i's GameObject.
- `initialVol`, the baseline copy, which no tick writes.

The Unity field initialisers together with `Start` become the constructor
`Start`. The sources found by `FindObjectsOfType` are its array arguments.
The constructor gives `volAtt` and `onOffSwitch` their script defaults
(1.0 and false). The engine overwrites these public, serialized fields with
the values set in the inspector before `Start` runs. In the model the
caller sets the fields after the constructor instead, as both scenarios do.
Each tick is a method call taking the following inputs:
- the angle between the camera's forward vector and each source, `angle[i]`;
- the camera's `fieldOfView`;
- the frame time `Time.deltaTime`, as `dt`.

Two facts about the code shape the model:
- The volume ramp runs only inside the 100 ms tick. `Update` is entirely
  commented out, so nothing moves the volumes between ticks.
- The angle is compared with `Camera.fieldOfView` itself.

`FlagAt` and `Visited` in `audio_focus_priority.dfy` are specification
functions. `FlagAt` gives the flag each source sees. `Visited` is a proof
helper that combines an arbiter's and a non-arbiter's new volume into one
expression for the loop invariant of `FollowArbiters`.

## Model

| member | source | states |
|---|---|---|
| Attenuation.Clamp01 | Scripts/AudioFocus3D.cs:129 | Mathf.Lerp's clamp: the result lies in [0, 1], equals t inside that range, 1 above it and 0 below it |
| Attenuation.Lerp | Scripts/AudioFocus3D.cs:129 | the interpolated volume lies between the two end points inclusive; a parameter of at least 1 gives the end point exactly, at most 0 gives the start |
| Attenuation.Ramp | Scripts/AudioFocus3D.cs:125-131 | AdjustVolume's new level lies between the old volume and the target; a source already at its target keeps its volume; with rampSpeed 200 any dt >= 0.005 lands exactly on the target, and dt <= 0 leaves the volume as it is |
| Attenuation.Settle | Scripts/AudioFocus3D.cs:44 | over any number of 100 ms ticks with unchanged inputs the volume stays between its start and the target, and after one tick with dt >= 0.005 it sits on the target |
| Attenuation.Attenuated | Scripts/AudioFocus3D.cs:104 | with volAtt in its inspector range [0.01, 1.0] and a non-negative baseline the ducked level lies in [0.01 * baseline, baseline]; the default volAtt 1.0 does not duck at all |
| Attenuation.OutOfView | Scripts/AudioFocus3D.cs:101 | the view test: a source is out of view exactly when its angle from the camera's forward vector exceeds the camera's fieldOfView (a predicate without a contract, used by SourceTarget and FlagAt) |
| AudioFocus.SourceTarget | Scripts/AudioFocus3D.cs:101-111 | both directions of the rule: an out-of-view source with non-zero spatial blend targets the ducked level initialVol * volAtt; a source with spatial blend 0, or one in view, targets its baseline; any target other than the baseline comes from an out-of-view, non-2D source; the target stays within the attenuation bounds |
| AudioFocus.AudioFocus3D.Start | Scripts/AudioFocus3D.cs:35-41 | after Start, initialVol is a fresh array as long as the source array and holds every source's volume at that moment; volAtt starts at 1.0 |
| AudioFocus.AudioFocus3D.FindFOVAudioSources | Scripts/AudioFocus3D.cs:96-116 | one tick sets every source's volume to one ramp step from its old volume toward its SourceTarget and writes nothing else (baselines and spatial blends unchanged; an empty source array changes nothing) |
| AudioFocus.AudioFocus3D.AdjustVolume | Scripts/AudioFocus3D.cs:125-131 | source i's volume becomes Ramp(startVol, endVol, dt) and no other source's volume changes |
| AudioFocus.ViewScenario | Scripts/AudioFocus3D.cs:101-111 | with baselines 1.0, volAtt 0.2 and 20 ms frames, a tick with both sources out of view ducks the 3D source to 0.2 and leaves the 2D source at 1.0; the next tick in view restores the 3D source to 1.0 |
| AudioFocusPriority.MinPriority | Scripts/AudioFocus3DPriority.cs:44-52 | the scanned priority is at most 256 and at most every source's priority, and is either 256 or some source's priority |
| AudioFocusPriority.FlagAt | Scripts/AudioFocus3DPriority.cs:111-125 | the value of soundOnFOV when an enabled tick reaches source k: the flag carried over from the previous tick, overwritten in array order by each earlier arbiter's visibility (a specification function; its properties are the three lemmas below) |
| AudioFocusPriority.FlagCarriedOrWritten | Scripts/AudioFocus3DPriority.cs:111-125 | the flag seen at any source is either the one carried over from the previous tick or the visibility of some arbiter visited before it |
| AudioFocusPriority.FlagBeforeFirstArbiter | Scripts/AudioFocus3DPriority.cs:107-142 | a source visited before any arbiter sees the flag left by the previous tick; with no arbiter at all, the tick ends with the flag it started with |
| AudioFocusPriority.LastArbiterWins | Scripts/AudioFocus3DPriority.cs:111-125 | last write wins: the flag seen after arbiter j, with no arbiter in between, is exactly j's visibility, whatever came before |
| AudioFocusPriority.DuckTarget | Scripts/AudioFocus3DPriority.cs:126-142 | a non-arbiter targets its baseline when the flag is true and the ducked level when it is false, within the attenuation bounds; its own angle and spatial blend play no part |
| AudioFocusPriority.AudioFocus3DPriority.Start | Scripts/AudioFocus3DPriority.cs:42-52 | after Start, initialVol holds every source's volume, prioritySound is the MinPriority of the source priorities, soundOnFOV and onOffSwitch are false and volAtt is 1.0 |
| AudioFocusPriority.AudioFocus3DPriority.FindFOVAudioSources | Scripts/AudioFocus3DPriority.cs:101-153 | switch off: every source ramps toward its baseline and soundOnFOV is unchanged; switch on: arbiters keep their volume, soundOnFOV ends as FlagAt over all sources, and every other source ramps toward the DuckTarget of the flag as it stood when it was visited; baselines and priorities never change |
| AudioFocusPriority.AudioFocus3DPriority.FollowArbiters | Scripts/AudioFocus3DPriority.cs:107-143 | the enabled pass: soundOnFOV ends as FlagAt over all sources, and each source's volume becomes Visited of its old volume and the flag at its index (arbiters keep their volume, the others ramp toward DuckTarget) |
| AudioFocusPriority.AudioFocus3DPriority.Visit | Scripts/AudioFocus3DPriority.cs:111-142 | one loop iteration: an arbiter sets soundOnFOV to its own visibility and keeps its volume; any other source keeps the flag and ramps toward the DuckTarget of the flag as it stood; no other source changes |
| AudioFocusPriority.AudioFocus3DPriority.RestoreBaselines | Scripts/AudioFocus3DPriority.cs:145-151 | the bypass pass: every source ramps one step toward its baseline |
| AudioFocusPriority.AudioFocus3DPriority.AdjustVolume | Scripts/AudioFocus3DPriority.cs:160-166 | source i's volume becomes Ramp(startVol, endVol, dt) and no other source's volume changes |
| AudioFocusPriority.FirstTickScenario | Scripts/AudioFocus3DPriority.cs:23-23 | on the first enabled tick a non-arbiter placed before the arbiter sees the initial false and is ducked (0.5 to 0.1), the in-view arbiter keeps 0.8, and the out-of-view source after it follows the arbiter's true and stays at 1.0 |

## Left out

- Geometry is not modelled. This covers `Vector3.Angle`, `.normalized` and
  the camera transform. A tick receives each source's angle as input. The
  zero-length direction of a source placed at the camera is not modelled.
- Engine plumbing is not modelled. This covers `FindObjectsOfType`,
  `InvokeRepeating` and the MonoBehaviour lifecycle. The source arrays are
  constructor arguments, and each tick is an explicit method call.
- `Time.deltaTime` is a parameter `dt` of each tick.
- The low-pass filter code is not modelled: `CreateLPF`, `EnableLPF`,
  `SetLPFParams` and the `Update` bodies. Every call to them is commented
  out, and they only toggle Unity components.
- `LinearToDecibel` and `DecibelToLinear` are not modelled. They are never
  called and are built on floating-point `Log10` and `Pow`.
- Volumes, `volAtt` and `dt` are exact reals. IEEE single-precision
  rounding is not modelled.
- The engine keeps `AudioSource.volume` in [0, 1]. It clamps every value
  written to it, and the next tick reads the clamped value back. The model
  stores the Lerp result unclamped. It matches the engine only while every
  baseline and every starting volume lies in [0, 1] and `volAtt` lies in
  [0, 1]. Under those bounds every target and every ramp step stays in
  [0, 1]. For volAtt in its inspector range [0.01, 1] this follows from the
  proved bounds of Ramp and Attenuated. With `volAtt = 2.0` and
  baseline 0.8, an out-of-view 3D source is held at 1.0 by the engine,
  but the model gives 1.6.
- A missing camera or a destroyed audio source is not modelled. In
  AudioFocus3D either one raises a null reference on every tick that has a
  source. In AudioFocus3DPriority the camera is read only for arbiters on
  an enabled tick. A destroyed source raises on any tick.
- Attenuation.Settle: states only the bounds and the one-tick landing for
  dt >= 0.005. It does not state the geometric rate at which the volume
  approaches the target for smaller frame times.
- The `[Range(0.01, 1.0)]` inspector bound on `volAtt` is not enforced.
  The public fields `volAtt` and `onOffSwitch` can be set between ticks.
  The attenuation bounds are stated for the inspector range only. Outside
  [0, 1] the model departs from the engine, as the volume-clamp line
  above describes.
- AudioFocusPriority.AudioFocus3DPriority.FollowArbiters,
  AudioFocusPriority.AudioFocus3DPriority.Visit and
  AudioFocusPriority.AudioFocus3DPriority.RestoreBaselines split the
  priority component's tick into separate methods: the two branches and
  the body of the enabled loop. The source writes all of it inline in
  `FindFOVAudioSources`.
