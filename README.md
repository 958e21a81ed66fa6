# Doors and first-person control, modelled in Dafny

This project models the small state machines inside five Unity behaviours of
a first-person game:

- `Door_open`: a hinged door that toggles between closed and open. Each toggle
  kills the running DOTween tween, recomputes the open yaw as the closed yaw
  ±90°, flips the state, starts one rotation tween to the new endpoint and
  plays the open or close clip.
- `Double_door_open`: a composite with two optional `Door_open` children. It
  configures them to swing in opposite directions. Each toggle flips its own
  flag and toggles every present child that disagrees with it.
- `FirstPersonPlayerMovement`: crouch and sprint toggles, a clearance-guarded
  stand-up, the speed choice (crouch over sprint over walk), the grounded
  velocity reset, the smoothed crouch parameter that drives the controller
  and camera heights, and gravity.
- `FirstPersonCameraController`: look input turns the body (yaw). It is also
  accumulated into a pitch that is clamped to `[-verticalClamp, verticalClamp]`.
- `DoorInteractor`: a per-frame ray scan that keeps the door under the
  crosshair as a candidate, and an interact action that toggles that door.

Each behaviour is a `class` whose fields are the script's fields. Its methods
are the script's methods, with `modifies` frames. Every state change is tied
to a pure specification function (`Toggle`, `SyncChild`, `CrouchToggled`,
`SprintToggled`, `NextCrouchLerp`, `PitchStep`, `Candidate`). Lemmas about
those functions prove the properties that span many calls: parity after N
toggles, at most one running tween, the locomotion invariant, the crouch
parameter staying in [0, 1], and the pitch bound.

Engine services are inputs or records:

- the transform's current Euler angles and axes are method parameters;
- the ground sphere cast and the door ray cast are passed in as their results;
- the upward clearance sweep of `CanStandUp` is a function from probe distance to hit;
- the tweens a door starts are kept in order in `tweens`; the last entry is the `doorTween` handle, and `active` is its `IsActive()`;
- the clips handed to the audio source are kept in order in `played`;
- each `controller.Move` call is returned as the displacement it was given.

Angles, heights and speeds are `real`. `Mathf.Clamp`, `Mathf.Clamp01` and
`Mathf.Lerp` are written out as Unity defines them, so `Lerp` clamps its
parameter.

The model follows the code; note that:

- The camera script applies no smoothing filter and no device-specific sensitivity. It scales the raw look input by one `sensitivity`.
- `CheckForDoor` never hides the interaction prompt when the ray misses. Only `Start` hides it.
- A door's flag after N toggles is its starting flag xor "N is odd", not only "N is odd".

## Model

| member | source | states |
|---|---|---|
| Mathf.Clamp | Assets/Scripts/FirstPersonCameraController.cs:51 | the result is one of its three arguments; it lies in [min, max] when min <= max; a value already in range is returned unchanged |
| Mathf.Clamp01 | Assets/Scripts/FirstPersonPlayerMovement.cs:87 | the result is in [0, 1]; it is t inside that range, 0 below it and 1 above it |
| Mathf.Lerp | Assets/Scripts/FirstPersonPlayerMovement.cs:87-90 | the result stays between a and b; it is a at t <= 0 and b at t >= 1 |
| DoorOpen.OpenEndpoint | Assets/Scripts/Door_open.cs:77 | the open yaw is exactly a quarter turn from the closed yaw, and it is greater than the closed yaw iff rotatePositive |
| DoorOpen.TargetRotation | Assets/Scripts/Door_open.cs:83-90 | the tween target keeps the current pitch and roll; its yaw is the open endpoint when open and the closed endpoint when closed, never a third value |
| DoorOpen.SoundPlayed | Assets/Scripts/Door_open.cs:112-124 | at most one clip plays; none plays iff there is no audio source or the chosen clip is unset; the clip played is the open clip when open and the close clip when closed |
| DoorOpen.KillCurrent | Assets/Scripts/Door_open.cs:71-74 | killing the handle stops only the newest tween and leaves every other record unchanged |
| DoorOpen.Toggle | Assets/Scripts/Door_open.cs:68-99 | the flag flips; the open yaw is recomputed from the closed yaw and the direction; the closed yaw and the settings are unchanged; exactly one tween is added, running and aimed at the new endpoint, and the older records are kept except that the newest one is killed; if at most the newest tween was running before, every older tween has stopped; the matching cue is appended |
| DoorOpen.ToggleAllParity | Assets/Scripts/Door_open.cs:80 | after N toggles the door is open iff it started open xor N is odd; the closed yaw and direction are unchanged; N tweens were added and at most the newest still runs |
| DoorOpen.ToggleTwiceReturns | Assets/Scripts/Door_open.cs:77-90 | two toggles restore the flag and aim the newest tween at the endpoint the door started at |
| DoorOpen.OpenThenCloseScenario | Assets/Scripts/Door_open.cs:68-124 | a closed door at yaw 0 turning positive opens towards 90 with the open cue, then closes towards 0 with the close cue, and the first tween is killed |
| DoorOpen.Door.constructor | Assets/Scripts/Door_open.cs:8-28 | a new door has its inspector settings, both yaws 0, no audio source, no tween and no clip played |
| DoorOpen.Door.Start | Assets/Scripts/Door_open.cs:30-45 | the current yaw becomes the closed yaw, the open yaw is derived from it, and an audio source exists iff a clip is set; nothing else changes |
| DoorOpen.Door.TestDoorToggle | Assets/Scripts/Door_open.cs:49-63 | when both yaws are still 0 the endpoints are first taken from the current yaw; then the door toggles exactly once |
| DoorOpen.Door.ToggleDoor | Assets/Scripts/Door_open.cs:68-99 | the new state is Toggle of the old one; the doorTween handle is the single running tween, aimed at the new endpoint |
| DoorOpen.Door.CompleteTween | Assets/Scripts/Door_open.cs:93-107 | when the engine finishes the running tween it stops, nothing else changes, and afterwards no tween of the door runs |
| DoorOpen.Door.PlayDoorSound | Assets/Scripts/Door_open.cs:112-124 | appends exactly SoundPlayed for the current flag to the clips played |
| DoorOpen.Door.Interact | Assets/Scripts/Door_open.cs:129-132 | Interact has exactly the effect of ToggleDoor |
| DoubleDoorOpen.SyncChild | Assets/Scripts/Double_door_open.cs:94-118 | the child ends with the composite's flag; it gains one tween iff it disagreed and is untouched iff it agreed; its closed yaw and direction stay; the one-running-tween property is kept |
| DoubleDoorOpen.ConfiguredDirectionTakesEffect | Assets/Scripts/Double_door_open.cs:48-62 | a direction and duration written by the configuration are used by the child's very next toggle, whatever open yaw it had stored |
| DoubleDoorOpen.DoubleDoor.constructor | Assets/Scripts/Double_door_open.cs:7-29 | a new composite has its inspector settings, is not configured, has no audio source and has played nothing |
| DoubleDoorOpen.DoubleDoor.Start | Assets/Scripts/Double_door_open.cs:31-42 | configures the children as ConfigureDoors does; an audio source exists iff a clip is set |
| DoubleDoorOpen.DoubleDoor.ConfigureDoors | Assets/Scripts/Double_door_open.cs:45-63 | the left child swings negative and the right one positive; both take the composite's duration and ease; nothing else in them changes; configured becomes true iff a child is present, and otherwise keeps its value; if both references name one door, the right-hand settings win |
| DoubleDoorOpen.DoubleDoor.TestDoubleDoorToggle | Assets/Scripts/Double_door_open.cs:67-77 | the same outcome as ToggleDoubleDoors: the composite flips, every present child agrees with it and is SyncChild of its configured old state, including when both references name one door, and the cue is appended |
| DoubleDoorOpen.DoubleDoor.ToggleDoubleDoors | Assets/Scripts/Double_door_open.cs:82-122 | configures first when not yet configured; flips the composite's flag exactly once; every present child ends with that flag; each distinct child becomes SyncChild of its configured old state, so a missing child only warns and the other is still synchronised; the composite's cue is appended |
| DoubleDoorOpen.DoubleDoor.ConfigureIfNeeded | Assets/Scripts/Double_door_open.cs:85-88 | each child becomes its configured state if the doors were not configured, and stays as it was if they were |
| DoubleDoorOpen.DoubleDoor.SyncDoor | Assets/Scripts/Double_door_open.cs:94-105 | a child is toggled exactly once when its flag differs from the composite's and is left alone otherwise |
| DoubleDoorOpen.DoubleDoor.PlayDoorSound | Assets/Scripts/Double_door_open.cs:127-139 | appends exactly SoundPlayed for the composite's flag |
| DoubleDoorOpen.DoubleDoor.Interact | Assets/Scripts/Double_door_open.cs:144-147 | Interact has exactly the effect of ToggleDoubleDoors |
| DoubleDoorOpen.DoubleDoor.SetDoors | Assets/Scripts/Double_door_open.cs:152-158 | both references are replaced and the new children are configured |
| PlayerMovement.SelectSpeed | Assets/Scripts/FirstPersonPlayerMovement.cs:108 | crouch speed while crouching, else sprint speed while sprinting, else walk speed |
| PlayerMovement.ExtraHeight | Assets/Scripts/FirstPersonPlayerMovement.cs:145 | the missing height is 0 when standing, the full height difference when fully crouched, and between the two otherwise |
| PlayerMovement.GroundedVelocity | Assets/Scripts/FirstPersonPlayerMovement.cs:80-81 | the vertical velocity becomes -2 exactly when grounded and falling; otherwise the velocity is unchanged; the horizontal parts are never touched |
| PlayerMovement.CrouchToggled | Assets/Scripts/FirstPersonPlayerMovement.cs:119-135 | standing to crouching always succeeds and clears sprint; crouching to standing happens only with clearance, and otherwise nothing changes; the locomotion invariant is kept |
| PlayerMovement.SprintToggled | Assets/Scripts/FirstPersonPlayerMovement.cs:137-141 | no change while crouching, otherwise the sprint flag flips; the locomotion invariant is kept |
| PlayerMovement.SprintTwiceRestores | Assets/Scripts/FirstPersonPlayerMovement.cs:137-141 | two sprint toggles restore the flags |
| PlayerMovement.LocomotionInvariant | Assets/Scripts/FirstPersonPlayerMovement.cs:119-141 | after any sequence of crouch and sprint presses, crouching implies not sprinting and the crouch target is 1 iff crouching, else 0 |
| PlayerMovement.NextCrouchLerp | Assets/Scripts/FirstPersonPlayerMovement.cs:87 | one step keeps the crouch parameter in [0, 1] and between its old value and the target; a step of 1 or more reaches the target |
| PlayerMovement.CrouchLerpStaysInUnit | Assets/Scripts/FirstPersonPlayerMovement.cs:87 | for any sequence of frame steps and 0/1 targets, the crouch parameter stays in [0, 1] |
| PlayerMovement.CrouchEndpoints | Assets/Scripts/FirstPersonPlayerMovement.cs:89-90 | at parameter 0 the heights are the standing values, at 1 the crouching values, and nothing is missing at 0 |
| PlayerMovement.Player.CanStandUp | Assets/Scripts/FirstPersonPlayerMovement.cs:143-148 | when standing the probe reaches only the 0.1 margin; when fully crouched it reaches the height difference plus the margin; the answer is "nothing hit" |
| PlayerMovement.Player.constructor | Assets/Scripts/FirstPersonPlayerMovement.cs:39-61 | Awake places the ground check from the controller's previous height, then sets the controller to the standing height and the camera, if any, to the standing camera height |
| PlayerMovement.Player.OnMovePerformed | Assets/Scripts/FirstPersonPlayerMovement.cs:48 | the move input becomes the action's value |
| PlayerMovement.Player.OnMoveCanceled | Assets/Scripts/FirstPersonPlayerMovement.cs:49 | the move input becomes zero |
| PlayerMovement.Player.Update | Assets/Scripts/FirstPersonPlayerMovement.cs:66-72 | ground check, crouch transition, planar move and gravity run in that order, with the combined effect on velocity and the crouch parameter; the feet stay put over the frame, the ground check sits at half the controller height below, and without a camera the camera height is untouched |
| PlayerMovement.Player.GroundCheck | Assets/Scripts/FirstPersonPlayerMovement.cs:74-82 | the grounded flag is the cast's verdict and the velocity is GroundedVelocity of the old one |
| PlayerMovement.Player.HandleCrouchTransition | Assets/Scripts/FirstPersonPlayerMovement.cs:84-104 | the crouch parameter takes one NextCrouchLerp step; the controller and camera heights follow it; the feet stay put, because position minus half the height is unchanged; the ground check sits at half the height below |
| PlayerMovement.Player.MovePlayer | Assets/Scripts/FirstPersonPlayerMovement.cs:106-111 | the displacement is the input along the right and forward axes, times the selected speed and the frame time; the crouch speed is used while crouching |
| PlayerMovement.Player.ApplyGravity | Assets/Scripts/FirstPersonPlayerMovement.cs:113-117 | the vertical velocity grows by gravity times the frame time, and the displacement is the velocity over the frame |
| PlayerMovement.Player.ToggleCrouch | Assets/Scripts/FirstPersonPlayerMovement.cs:119-135 | the flags become CrouchToggled of the old flags, with the clearance verdict; the invariants still hold |
| PlayerMovement.Player.ToggleSprint | Assets/Scripts/FirstPersonPlayerMovement.cs:137-141 | the flags become SprintToggled of the old flags; the invariants still hold |
| CameraController.PitchStep | Assets/Scripts/FirstPersonCameraController.cs:50-51 | the pitch lands in [-verticalClamp, verticalClamp] when verticalClamp >= 0; an in-range result is exact; zero input leaves an in-range pitch unchanged |
| CameraController.PitchStaysClamped | Assets/Scripts/FirstPersonCameraController.cs:50-51 | for any input sequence the pitch ends within the clamp range |
| CameraController.StillInputKeepsPitch | Assets/Scripts/FirstPersonCameraController.cs:47-51 | any run of frames with zero look input leaves an in-range pitch where it was |
| CameraController.Camera.constructor | Assets/Scripts/FirstPersonCameraController.cs:7-13 | a new controller has its settings, zero input, zero pitch and no body |
| CameraController.Camera.Start | Assets/Scripts/FirstPersonCameraController.cs:36-41 | the body exists iff the camera has a parent |
| CameraController.Camera.OnLookPerformed | Assets/Scripts/FirstPersonCameraController.cs:20 | the look input becomes the action's value |
| CameraController.Camera.OnLookCanceled | Assets/Scripts/FirstPersonCameraController.cs:21 | the look input becomes zero |
| CameraController.Camera.Update | Assets/Scripts/FirstPersonCameraController.cs:43-57 | the pitch is PitchStep of the old pitch and stays in range; the local rotation's pitch is the absolute clamped value, never a compounded one; the body yaw grows by lookInput.x * sensitivity * dt only when a body exists; with zero input an in-range pitch and the yaw are unchanged |
| DoorInteraction.Candidate | Assets/Scripts/DoorInteractor.cs:56-66 | the candidate is non-null iff the ray hit a collider carrying a door, and is then that door |
| DoorInteraction.Interactor.constructor | Assets/Scripts/DoorInteractor.cs:7-12 | a new scanner has no candidate |
| DoorInteraction.Interactor.Start | Assets/Scripts/DoorInteractor.cs:33-39 | the prompt, if any, is hidden |
| DoorInteraction.Interactor.Update | Assets/Scripts/DoorInteractor.cs:41-44 | one CheckForDoor |
| DoorInteraction.Interactor.CheckForDoor | Assets/Scripts/DoorInteractor.cs:46-68 | the candidate is reset and then set to Candidate of the ray result; the prompt is shown when a door is found and a prompt exists; it is never hidden here |
| DoorInteraction.Interactor.TryInteract | Assets/Scripts/DoorInteractor.cs:70-76 | nothing happens without a candidate; otherwise the candidate door, and only it, toggles exactly once |

## Left out

- Physics queries (`Physics.SphereCast`, `Physics.Raycast`) and collision resolution in `controller.Move`. Their results are parameters and the move is returned as a displacement. Collision geometry belongs to the engine.
- DOTween easing curves, timing and the `OnComplete` callback itself (`OnDoorAnimationComplete` is empty). A tween is a record with a target, duration, ease and active flag.
- Building transforms, quaternions and Euler angles, and wrapping angles into [0, 360). Yaw is kept as a raw real, and the body's yaw as the running sum of deltas.
- `transform.position` changes made by `controller.Move`. `positionY` tracks only the shift that `HandleCrouchTransition` applies.
- Audio playback itself, `Debug.Log`/`LogWarning`/`DrawRay`, `Cursor.lockState`, `AddComponent` settings (`playOnAwake`, `spatialBlend`) and the `OnEnable`/`OnDisable` input enabling. These are I/O and host plumbing.
- The generated `PlayerControls` input class and its event subscription. The action callbacks are plain methods.
- `crouchVelocity` in `FirstPersonPlayerMovement`: it is declared but never used.
- Float rounding: all quantities are `real`, and `Mathf.Lerp` and `Mathf.Clamp` follow Unity's definitions. `Clamp` returns one of its inputs, so the pitch bound also holds for floats other than NaN.
- `DoorOpen.Door.Valid`: this states that at most the newest tween runs. It holds only because the door's own methods are the only writers of `tweens`. Tweens killed by other code are not modelled.
- A composite flag drifting from a child that is toggled directly is not modelled beyond the contracts above. The composite never reads a child's flag back except when it toggles.
