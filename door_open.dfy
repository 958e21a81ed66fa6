/** Door_open: a hinged door with two states, closed and open. Each toggle
    kills the running tween, recomputes the open yaw from the closed yaw and
    the rotation direction, flips the state, starts one tween towards the
    chosen endpoint and plays the matching sound cue.

    Engine services are outside the model: the door's current Euler angles
    are passed in, the tweens the door asked DOTween for are recorded in
    order (the last one is the `doorTween` handle) and so are the clips it
    asked its AudioSource to play. */
module DoorOpen {
  import opened Engine

  /** How far the door swings, in degrees. */
  const SwingAngle: real := 90.0

  /** The door's fields as one value; Door.State() is this view of a Door. */
  datatype DoorState = DoorState(
    isOpen: bool,
    rotatePositive: bool,
    animationDuration: real,
    easeType: Ease,
    openSound: Option<Clip>,
    closeSound: Option<Clip>,
    hasAudioSource: bool,
    closedRotationY: real,
    openRotationY: real,
    tweens: seq<Tween>,
    played: seq<Clip>)

  /** The yaw of the open position: a quarter turn from the closed yaw,
      in the positive direction exactly when `rotatePositive` is set. */
  function OpenEndpoint(closedY: real, rotatePositive: bool): (r: real)
    ensures r == closedY + SwingAngle || r == closedY - SwingAngle
    ensures rotatePositive <==> r > closedY
  {
    if rotatePositive then closedY + SwingAngle else closedY - SwingAngle
  }

  /** The Euler rotation a toggle animates to: the current pitch and roll are
      kept and only the yaw moves, to one of the two endpoints. */
  function TargetRotation(current: Vec3, isOpen: bool, openY: real, closedY: real): (r: Vec3)
    ensures r.x == current.x && r.z == current.z
    ensures r.y == openY || r.y == closedY
    ensures isOpen ==> r.y == openY
    ensures !isOpen ==> r.y == closedY
  {
    Vec3(current.x, if isOpen then openY else closedY, current.z)
  }

  /** The clips PlayDoorSound hands to the audio source: none without an
      audio source, otherwise the open clip when open and the close clip when
      closed, and none if that clip is unset. Shared with Double_door_open. */
  function SoundPlayed(hasAudioSource: bool, isOpen: bool, openSound: Option<Clip>, closeSound: Option<Clip>): (r: seq<Clip>)
    ensures |r| <= 1
    ensures r == [] <==> !hasAudioSource || (isOpen && openSound.None?) || (!isOpen && closeSound.None?)
    ensures r != [] && isOpen ==> openSound == Some(r[0])
    ensures r != [] && !isOpen ==> closeSound == Some(r[0])
  {
    if !hasAudioSource then []
    else
      var clip := if isOpen then openSound else closeSound;
      if clip.Some? then [clip.value] else []
  }

  /** Every tween but the newest has stopped: at most one tween of this door runs. */
  ghost predicate AtMostNewestActive(ts: seq<Tween>) {
    forall i :: 0 <= i < |ts| - 1 ==> !ts[i].active
  }

  /** The tween records after `doorTween.Kill()` when the handle is active:
      the newest tween stops and nothing else changes. */
  function KillCurrent(ts: seq<Tween>): (r: seq<Tween>)
    ensures |r| == |ts|
    ensures forall i :: 0 <= i < |ts| ==> r[i] == ts[i].(active := ts[i].active && i != |ts| - 1)
  {
    if ts != [] && ts[|ts| - 1].active then ts[..|ts| - 1] + [ts[|ts| - 1].(active := false)]
    else ts
  }

  /** ToggleDoor on the door's value, given its current Euler angles. */
  function Toggle(s: DoorState, current: Vec3): (r: DoorState)
    ensures r.isOpen == !s.isOpen
    ensures r.openRotationY == OpenEndpoint(s.closedRotationY, s.rotatePositive)
    ensures r.closedRotationY == s.closedRotationY
    ensures r.rotatePositive == s.rotatePositive && r.animationDuration == s.animationDuration
    ensures r.easeType == s.easeType && r.hasAudioSource == s.hasAudioSource
    ensures r.openSound == s.openSound && r.closeSound == s.closeSound
    ensures |r.tweens| == |s.tweens| + 1
    ensures r.tweens[..|s.tweens|] == KillCurrent(s.tweens)
    ensures r.tweens[|s.tweens|] ==
      Tween(TargetRotation(current, r.isOpen, r.openRotationY, r.closedRotationY), s.animationDuration, s.easeType, true)
    ensures AtMostNewestActive(s.tweens) ==> forall i :: 0 <= i < |s.tweens| ==> !r.tweens[i].active
    ensures AtMostNewestActive(r.tweens) <== AtMostNewestActive(s.tweens)
    ensures r.played == s.played + SoundPlayed(s.hasAudioSource, r.isOpen, s.openSound, s.closeSound)
  {
    var openY := OpenEndpoint(s.closedRotationY, s.rotatePositive);
    var isOpen := !s.isOpen;
    var tween := Tween(TargetRotation(current, isOpen, openY, s.closedRotationY), s.animationDuration, s.easeType, true);
    s.(isOpen := isOpen,
       openRotationY := openY,
       tweens := KillCurrent(s.tweens) + [tween],
       played := s.played + SoundPlayed(s.hasAudioSource, isOpen, s.openSound, s.closeSound))
  }

  /** A run of toggles, the i-th one made while the door's angles are `angles[i]`. */
  function ToggleAll(s: DoorState, angles: seq<Vec3>): DoorState
    decreases |angles|
  {
    if angles == [] then s else ToggleAll(Toggle(s, angles[0]), angles[1..])
  }

  /** After N toggles the door is open exactly when it started open xor N is
      odd; the closed yaw and the direction never change; one tween is
      started per toggle, and at most the newest of them is still running. */
  lemma {:induction false} ToggleAllParity(s: DoorState, angles: seq<Vec3>)
    requires AtMostNewestActive(s.tweens)
    ensures ToggleAll(s, angles).isOpen == (s.isOpen != (|angles| % 2 == 1))
    ensures ToggleAll(s, angles).closedRotationY == s.closedRotationY
    ensures ToggleAll(s, angles).rotatePositive == s.rotatePositive
    ensures |ToggleAll(s, angles).tweens| == |s.tweens| + |angles|
    ensures AtMostNewestActive(ToggleAll(s, angles).tweens)
    decreases |angles|
  {
    if angles != [] {
      ToggleAllParity(Toggle(s, angles[0]), angles[1..]);
    }
  }

  /** Two toggles bring the flag back and aim the newest tween at the yaw the
      door started in: the open endpoint if it was open, the closed one if not. */
  lemma ToggleTwiceReturns(s: DoorState, a1: Vec3, a2: Vec3)
    ensures Toggle(Toggle(s, a1), a2).isOpen == s.isOpen
    ensures Toggle(Toggle(s, a1), a2).tweens[|s.tweens| + 1].target.y ==
      (if s.isOpen then OpenEndpoint(s.closedRotationY, s.rotatePositive) else s.closedRotationY)
  {
  }

  /** The scenario of a closed door at yaw 0 turning positive: the first
      toggle opens it towards yaw 90 with the open cue, the second closes it
      towards yaw 0 with the close cue, killing the first tween. */
  lemma OpenThenCloseScenario(s: DoorState, a1: Vec3, a2: Vec3, openClip: Clip, closeClip: Clip)
    requires !s.isOpen && s.rotatePositive && s.closedRotationY == 0.0
    requires s.hasAudioSource && s.openSound == Some(openClip) && s.closeSound == Some(closeClip)
    requires s.tweens == [] && s.played == []
    ensures Toggle(s, a1).isOpen && Toggle(s, a1).tweens[0].target.y == 90.0
    ensures Toggle(s, a1).played == [openClip]
    ensures !Toggle(Toggle(s, a1), a2).isOpen
    ensures Toggle(Toggle(s, a1), a2).tweens[1].target.y == 0.0
    ensures !Toggle(Toggle(s, a1), a2).tweens[0].active
    ensures Toggle(Toggle(s, a1), a2).played == [openClip, closeClip]
  {
  }

  class Door {
    /** Inspector settings. */
    var isOpen: bool
    var rotatePositive: bool
    var animationDuration: real
    var easeType: Ease
    var openSound: Option<Clip>
    var closeSound: Option<Clip>
    /** Whether Start added an AudioSource component. */
    var hasAudioSource: bool
    var closedRotationY: real
    var openRotationY: real
    /** Every tween this door started, oldest first; the last is `doorTween`. */
    var tweens: seq<Tween>
    /** Every clip this door's audio source was told to play, oldest first. */
    var played: seq<Clip>

    ghost predicate Valid()
      reads this
    {
      AtMostNewestActive(tweens)
    }

    function State(): DoorState
      reads this
    {
      DoorState(isOpen, rotatePositive, animationDuration, easeType, openSound, closeSound,
                hasAudioSource, closedRotationY, openRotationY, tweens, played)
    }

    /** The `doorTween` handle: null until the first toggle. */
    function DoorTween(): Option<Tween>
      reads this
    {
      if tweens == [] then None else Some(tweens[|tweens| - 1])
    }

    /** A door as the inspector sets it up, before Start: both yaws are 0 and
        there is no audio source and no tween. */
    constructor (isOpen: bool, rotatePositive: bool, animationDuration: real, easeType: Ease,
                 openSound: Option<Clip>, closeSound: Option<Clip>)
      ensures Valid()
      ensures State() == DoorState(isOpen, rotatePositive, animationDuration, easeType,
                                   openSound, closeSound, false, 0.0, 0.0, [], [])
    {
      this.isOpen := isOpen;
      this.rotatePositive := rotatePositive;
      this.animationDuration := animationDuration;
      this.easeType := easeType;
      this.openSound := openSound;
      this.closeSound := closeSound;
      hasAudioSource := false;
      closedRotationY := 0.0;
      openRotationY := 0.0;
      tweens := [];
      played := [];
    }

    /** Start: the current yaw becomes the closed position, the open position
        is derived from it, and an audio source is added if any clip is set. */
    method Start(current: Vec3)
      requires Valid()
      modifies this
      ensures Valid()
      ensures State() == old(State()).(
        closedRotationY := current.y,
        openRotationY := OpenEndpoint(current.y, rotatePositive),
        hasAudioSource := old(hasAudioSource) || openSound.Some? || closeSound.Some?)
    {
      closedRotationY := current.y;
      openRotationY := if rotatePositive then closedRotationY + SwingAngle else closedRotationY - SwingAngle;
      if openSound.Some? || closeSound.Some? {
        hasAudioSource := true;
      }
    }

    /** The inspector's test button: when both yaws are still 0 the endpoints
        are first taken from the current yaw, then the door toggles once. */
    method TestDoorToggle(current: Vec3)
      requires Valid()
      modifies this
      ensures Valid()
      ensures old(closedRotationY == 0.0 && openRotationY == 0.0) ==>
        State() == Toggle(old(State()).(closedRotationY := current.y,
                                        openRotationY := OpenEndpoint(current.y, rotatePositive)), current)
      ensures !old(closedRotationY == 0.0 && openRotationY == 0.0) ==>
        State() == Toggle(old(State()), current)
    {
      if closedRotationY == 0.0 && openRotationY == 0.0 {
        closedRotationY := current.y;
        openRotationY := if rotatePositive then closedRotationY + SwingAngle else closedRotationY - SwingAngle;
      }
      ToggleDoor(current);
    }

    /** ToggleDoor: kill the running tween, recompute the open yaw, flip the
        state, start one tween to the new endpoint and play the cue. */
    method ToggleDoor(current: Vec3)
      requires Valid()
      modifies this
      ensures Valid()
      ensures State() == Toggle(old(State()), current)
      ensures isOpen == !old(isOpen) && closedRotationY == old(closedRotationY)
      ensures DoorTween() == Some(Tween(TargetRotation(current, isOpen, openRotationY, closedRotationY),
                                        animationDuration, easeType, true))
    {
      ghost var before := State();
      if tweens != [] && tweens[|tweens| - 1].active {
        tweens := tweens[..|tweens| - 1] + [tweens[|tweens| - 1].(active := false)];
      }
      assert tweens == KillCurrent(before.tweens);
      openRotationY := if rotatePositive then closedRotationY + SwingAngle else closedRotationY - SwingAngle;
      isOpen := !isOpen;
      var targetRotationY := if isOpen then openRotationY else closedRotationY;
      var targetRotation := Vec3(current.x, targetRotationY, current.z);
      tweens := tweens + [Tween(targetRotation, animationDuration, easeType, true)];
      PlayDoorSound();
      assert State() == Toggle(before, current);
    }

    /** The engine finishes the running tween (its OnComplete callback does nothing). */
    method CompleteTween()
      requires Valid()
      modifies this`tweens
      ensures Valid()
      ensures tweens == KillCurrent(old(tweens))
      ensures forall i :: 0 <= i < |tweens| ==> !tweens[i].active
    {
      if tweens != [] && tweens[|tweens| - 1].active {
        tweens := tweens[..|tweens| - 1] + [tweens[|tweens| - 1].(active := false)];
      }
    }

    method PlayDoorSound()
      modifies this`played
      ensures played == old(played) + SoundPlayed(hasAudioSource, isOpen, openSound, closeSound)
    {
      if hasAudioSource {
        var clipToPlay := if isOpen then openSound else closeSound;
        if clipToPlay.Some? {
          played := played + [clipToPlay.value];
        }
      }
    }

    /** Interact is exactly ToggleDoor. */
    method Interact(current: Vec3)
      requires Valid()
      modifies this
      ensures Valid()
      ensures State() == Toggle(old(State()), current)
    {
      ToggleDoor(current);
    }
  }
}
