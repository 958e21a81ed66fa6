/** Double_door_open: a composite holding two optional Door_open children.
    It configures them to swing in opposite directions with its own duration
    and ease, and on each toggle flips its own flag and toggles every present
    child whose flag disagrees, so both children end up agreeing with it.
    The two references may name the same door; the contracts cover that too. */
module DoubleDoorOpen {
  import opened Engine
  import opened DoorOpen

  /** A child brought into line with the composite's flag: toggled once when
      it disagrees, left exactly as it is when it already agrees. */
  function SyncChild(d: DoorState, target: bool, current: Vec3): (r: DoorState)
    ensures r.isOpen == target
    ensures |r.tweens| == |d.tweens| + (if d.isOpen == target then 0 else 1)
    ensures d.isOpen == target ==> r == d
    ensures r.closedRotationY == d.closedRotationY && r.rotatePositive == d.rotatePositive
    ensures AtMostNewestActive(d.tweens) ==> AtMostNewestActive(r.tweens)
  {
    if d.isOpen != target then Toggle(d, current) else d
  }

  /** A direction written by the configuration takes effect on the child's
      very next toggle, whatever open yaw it had stored before. */
  lemma ConfiguredDirectionTakesEffect(d: DoorState, positive: bool, duration: real, ease: Ease, current: Vec3)
    ensures Toggle(d.(rotatePositive := positive, animationDuration := duration, easeType := ease), current).openRotationY
      == OpenEndpoint(d.closedRotationY, positive)
    ensures Toggle(d.(rotatePositive := positive, animationDuration := duration, easeType := ease), current)
      .tweens[|d.tweens|].duration == duration
  {
  }

  class DoubleDoor {
    /** Inspector settings. */
    var isOpen: bool
    var animationDuration: real
    var easeType: Ease
    var leftDoor: Door?
    var rightDoor: Door?
    var openSound: Option<Clip>
    var closeSound: Option<Clip>
    /** Whether Start added an AudioSource component. */
    var hasAudioSource: bool
    var doorsConfigured: bool
    /** Every clip the composite's own audio source was told to play. */
    var played: seq<Clip>

    ghost predicate ChildrenValid()
      reads this, leftDoor, rightDoor
    {
      (leftDoor != null ==> leftDoor.Valid()) && (rightDoor != null ==> rightDoor.Valid())
    }

    /** What ConfigureDoors does to a child, if the doors are not configured yet. */
    ghost function Prepared(d: DoorState, positive: bool): DoorState
      reads this
    {
      if doorsConfigured then d
      else d.(rotatePositive := positive, animationDuration := animationDuration, easeType := easeType)
    }

    constructor (isOpen: bool, animationDuration: real, easeType: Ease, leftDoor: Door?, rightDoor: Door?,
                 openSound: Option<Clip>, closeSound: Option<Clip>)
      ensures this.isOpen == isOpen && this.animationDuration == animationDuration && this.easeType == easeType
      ensures this.leftDoor == leftDoor && this.rightDoor == rightDoor
      ensures this.openSound == openSound && this.closeSound == closeSound
      ensures !hasAudioSource && !doorsConfigured && played == []
    {
      this.isOpen := isOpen;
      this.animationDuration := animationDuration;
      this.easeType := easeType;
      this.leftDoor := leftDoor;
      this.rightDoor := rightDoor;
      this.openSound := openSound;
      this.closeSound := closeSound;
      hasAudioSource := false;
      doorsConfigured := false;
      played := [];
    }

    /** Start: configure the children, then add an audio source if any clip is set. */
    method Start()
      requires ChildrenValid()
      modifies this`doorsConfigured, this`hasAudioSource, leftDoor, rightDoor
      ensures ChildrenValid()
      ensures doorsConfigured == (old(doorsConfigured) || leftDoor != null || rightDoor != null)
      ensures hasAudioSource == (old(hasAudioSource) || openSound.Some? || closeSound.Some?)
      ensures leftDoor != null && leftDoor != rightDoor ==>
        leftDoor.State() == old(leftDoor.State()).(rotatePositive := false,
          animationDuration := animationDuration, easeType := easeType)
      ensures rightDoor != null ==>
        rightDoor.State() == old(rightDoor.State()).(rotatePositive := true,
          animationDuration := animationDuration, easeType := easeType)
    {
      ConfigureDoors();
      if openSound.Some? || closeSound.Some? {
        hasAudioSource := true;
      }
    }

    /** ConfigureDoors: the left child swings negative and the right child
        positive, both take the composite's duration and ease, and the doors
        count as configured once at least one child is present. When both
        references name one door, the right-hand settings are the ones left. */
    method ConfigureDoors()
      requires ChildrenValid()
      modifies this`doorsConfigured, leftDoor, rightDoor
      ensures ChildrenValid()
      ensures doorsConfigured == (old(doorsConfigured) || leftDoor != null || rightDoor != null)
      ensures leftDoor != null && leftDoor != rightDoor ==>
        leftDoor.State() == old(leftDoor.State()).(rotatePositive := false,
          animationDuration := animationDuration, easeType := easeType)
      ensures rightDoor != null ==>
        rightDoor.State() == old(rightDoor.State()).(rotatePositive := true,
          animationDuration := animationDuration, easeType := easeType)
    {
      if leftDoor != null {
        leftDoor.rotatePositive := false;
        leftDoor.animationDuration := animationDuration;
        leftDoor.easeType := easeType;
        doorsConfigured := true;
      }
      if rightDoor != null {
        rightDoor.rotatePositive := true;
        rightDoor.animationDuration := animationDuration;
        rightDoor.easeType := easeType;
        doorsConfigured := true;
      }
    }

    /** The inspector's test button: configure if needed, then toggle. */
    method TestDoubleDoorToggle(leftAngles: Vec3, rightAngles: Vec3)
      requires ChildrenValid()
      modifies this`doorsConfigured, this`isOpen, this`played, leftDoor, rightDoor
      ensures ChildrenValid()
      ensures isOpen == !old(isOpen)
      ensures leftDoor != null ==> leftDoor.isOpen == isOpen
      ensures rightDoor != null ==> rightDoor.isOpen == isOpen
      ensures doorsConfigured == (old(doorsConfigured) || leftDoor != null || rightDoor != null)
      ensures leftDoor != null && leftDoor != rightDoor ==>
        leftDoor.State() == SyncChild(old(Prepared(leftDoor.State(), false)), isOpen, leftAngles)
      ensures rightDoor != null && leftDoor != rightDoor ==>
        rightDoor.State() == SyncChild(old(Prepared(rightDoor.State(), true)), isOpen, rightAngles)
      ensures leftDoor != null && leftDoor == rightDoor ==>
        leftDoor.State() == SyncChild(old(Prepared(leftDoor.State(), true)), isOpen, leftAngles)
      ensures played == old(played) + SoundPlayed(hasAudioSource, isOpen, openSound, closeSound)
    {
      ConfigureIfNeeded();
      ToggleDoubleDoors(leftAngles, rightAngles);
    }

    /** ToggleDoubleDoors: configure if needed, flip the composite's flag,
        toggle each present child that disagrees with it (a missing child only
        draws a warning), then play the composite's own cue. Afterwards every
        present child agrees with the composite, whatever it started with. */
    method ToggleDoubleDoors(leftAngles: Vec3, rightAngles: Vec3)
      requires ChildrenValid()
      modifies this`doorsConfigured, this`isOpen, this`played, leftDoor, rightDoor
      ensures ChildrenValid()
      ensures isOpen == !old(isOpen)
      ensures leftDoor != null ==> leftDoor.isOpen == isOpen
      ensures rightDoor != null ==> rightDoor.isOpen == isOpen
      ensures doorsConfigured == (old(doorsConfigured) || leftDoor != null || rightDoor != null)
      ensures leftDoor != null && leftDoor != rightDoor ==>
        leftDoor.State() == SyncChild(old(Prepared(leftDoor.State(), false)), isOpen, leftAngles)
      ensures rightDoor != null && leftDoor != rightDoor ==>
        rightDoor.State() == SyncChild(old(Prepared(rightDoor.State(), true)), isOpen, rightAngles)
      ensures leftDoor != null && leftDoor == rightDoor ==>
        leftDoor.State() == SyncChild(old(Prepared(leftDoor.State(), true)), isOpen, leftAngles)
      ensures played == old(played) + SoundPlayed(hasAudioSource, isOpen, openSound, closeSound)
    {
      ConfigureIfNeeded();
      isOpen := !isOpen;
      if leftDoor != null {
        SyncDoor(leftDoor, leftAngles);
      }
      ghost var l1 := if leftDoor != null then Some(leftDoor.State()) else None;
      if rightDoor != null {
        SyncDoor(rightDoor, rightAngles);
      }
      assert leftDoor != null && leftDoor != rightDoor ==> l1 == Some(leftDoor.State());
      PlayDoorSound();
    }

    /** The guard both toggles start with: configure unless already configured. */
    method ConfigureIfNeeded()
      requires ChildrenValid()
      modifies this`doorsConfigured, leftDoor, rightDoor
      ensures ChildrenValid()
      ensures doorsConfigured == (old(doorsConfigured) || leftDoor != null || rightDoor != null)
      ensures leftDoor != null && leftDoor != rightDoor ==> leftDoor.State() == old(Prepared(leftDoor.State(), false))
      ensures rightDoor != null ==> rightDoor.State() == old(Prepared(rightDoor.State(), true))
    {
      if !doorsConfigured {
        ConfigureDoors();
      }
    }

    /** One child's branch of ToggleDoubleDoors: the child is toggled only
        when its flag differs from the composite's. */
    method SyncDoor(door: Door, current: Vec3)
      requires door.Valid()
      modifies door
      ensures door.Valid()
      ensures door.State() == SyncChild(old(door.State()), isOpen, current)
    {
      if door.isOpen != isOpen {
        door.ToggleDoor(current);
      }
    }

    method PlayDoorSound()
      modifies this`played
      ensures played == old(played) + SoundPlayed(hasAudioSource, isOpen, openSound, closeSound)
    {
      if hasAudioSource {
        var clipToPlay := if isOpen then openSound else closeSound;
        if clipToPlay.Some? {
          played := played + [clipToPlay.value];
        }
      }
    }

    /** Interact is exactly ToggleDoubleDoors. */
    method Interact(leftAngles: Vec3, rightAngles: Vec3)
      requires ChildrenValid()
      modifies this`doorsConfigured, this`isOpen, this`played, leftDoor, rightDoor
      ensures ChildrenValid()
      ensures isOpen == !old(isOpen)
      ensures leftDoor != null ==> leftDoor.isOpen == isOpen
      ensures rightDoor != null ==> rightDoor.isOpen == isOpen
      ensures doorsConfigured == (old(doorsConfigured) || leftDoor != null || rightDoor != null)
      ensures leftDoor != null && leftDoor != rightDoor ==>
        leftDoor.State() == SyncChild(old(Prepared(leftDoor.State(), false)), isOpen, leftAngles)
      ensures rightDoor != null && leftDoor != rightDoor ==>
        rightDoor.State() == SyncChild(old(Prepared(rightDoor.State(), true)), isOpen, rightAngles)
      ensures leftDoor != null && leftDoor == rightDoor ==>
        leftDoor.State() == SyncChild(old(Prepared(leftDoor.State(), true)), isOpen, leftAngles)
      ensures played == old(played) + SoundPlayed(hasAudioSource, isOpen, openSound, closeSound)
    {
      ToggleDoubleDoors(leftAngles, rightAngles);
    }

    /** SetDoors: replace both references, then configure the new children. */
    method SetDoors(left: Door?, right: Door?)
      requires left != null ==> left.Valid()
      requires right != null ==> right.Valid()
      modifies this`leftDoor, this`rightDoor, this`doorsConfigured, left, right
      ensures leftDoor == left && rightDoor == right
      ensures ChildrenValid()
      ensures doorsConfigured == (old(doorsConfigured) || left != null || right != null)
      ensures left != null && left != right ==>
        left.State() == old(left.State()).(rotatePositive := false,
          animationDuration := animationDuration, easeType := easeType)
      ensures right != null ==>
        right.State() == old(right.State()).(rotatePositive := true,
          animationDuration := animationDuration, easeType := easeType)
    {
      leftDoor := left;
      rightDoor := right;
      ConfigureDoors();
    }
  }
}
