/** FirstPersonPlayerMovement: walking, sprinting and crouching for a
    CharacterController. Crouching is a two-state toggle whose way back up is
    guarded by an upward clearance probe; a smoothed parameter `crouchLerp`
    follows the crouch target and drives the controller height and the
    camera height. Speed is chosen crouch first, then sprint, then walk.

    Engine services are outside the model: the ground sphere cast and the
    upward clearance sweep are passed in as their results, the transform's
    axes are passed in, and each `controller.Move` call is returned as the
    displacement it was given. */
module PlayerMovement {
  import opened Engine
  import opened Mathf

  /** The small downward speed kept while standing on the ground. */
  const GroundedFallSpeed: real := -2.0
  /** Extra reach of the clearance probe above the missing height. */
  const ProbeMargin: real := 0.1

  /** The speed MovePlayer uses: crouching overrides sprinting, sprinting overrides walking. */
  function SelectSpeed(isCrouching: bool, isSprinting: bool, crouchSpeed: real, sprintSpeed: real, walkSpeed: real): (r: real)
    ensures isCrouching ==> r == crouchSpeed
    ensures !isCrouching && isSprinting ==> r == sprintSpeed
    ensures !isCrouching && !isSprinting ==> r == walkSpeed
  {
    if isCrouching then crouchSpeed else if isSprinting then sprintSpeed else walkSpeed
  }

  /** The height still missing to stand up at this crouch parameter: none when
      standing, the full difference when fully crouched, in between otherwise. */
  function ExtraHeight(standingHeight: real, crouchHeight: real, crouchLerp: real): (r: real)
    ensures crouchHeight <= standingHeight ==> 0.0 <= r <= standingHeight - crouchHeight
    ensures crouchLerp <= 0.0 ==> r == 0.0
    ensures crouchLerp >= 1.0 ==> r == standingHeight - crouchHeight
  {
    standingHeight - Lerp(standingHeight, crouchHeight, crouchLerp)
  }

  /** The vertical velocity after GroundCheck: reset to the grounded fall
      speed exactly when on the ground and moving down, untouched otherwise. */
  function GroundedVelocity(velocity: Vec3, grounded: bool): (r: Vec3)
    ensures r.x == velocity.x && r.z == velocity.z
    ensures grounded && velocity.y < 0.0 ==> r.y == GroundedFallSpeed
    ensures !(grounded && velocity.y < 0.0) ==> r == velocity
  {
    if grounded && velocity.y < 0.0 then velocity.(y := GroundedFallSpeed) else velocity
  }

  /** The crouch flags: the part of the state the crouch and sprint toggles change. */
  datatype Locomotion = Locomotion(isCrouching: bool, isSprinting: bool, crouchTarget: real)

  /** Never sprinting while crouched, and the crouch target is 1 exactly when crouched and 0 otherwise. */
  predicate LocomotionOk(l: Locomotion) {
    (l.isCrouching ==> !l.isSprinting) && l.crouchTarget == (if l.isCrouching then 1.0 else 0.0)
  }

  /** ToggleCrouch on the flags: crouching down always succeeds and ends a
      sprint; standing up happens only with clearance and otherwise nothing changes. */
  function CrouchToggled(l: Locomotion, canStandUp: bool): (r: Locomotion)
    ensures !l.isCrouching ==> r.isCrouching && !r.isSprinting && r.crouchTarget == 1.0
    ensures l.isCrouching && canStandUp ==> !r.isCrouching && r.isSprinting == l.isSprinting && r.crouchTarget == 0.0
    ensures l.isCrouching && !canStandUp ==> r == l
    ensures LocomotionOk(l) ==> LocomotionOk(r)
  {
    if l.isCrouching then
      if canStandUp then l.(isCrouching := false, crouchTarget := 0.0) else l
    else
      l.(isCrouching := true, isSprinting := false, crouchTarget := 1.0)
  }

  /** ToggleSprint on the flags: nothing while crouched, a flip of the sprint flag otherwise. */
  function SprintToggled(l: Locomotion): (r: Locomotion)
    ensures l.isCrouching ==> r == l
    ensures !l.isCrouching ==> r.isSprinting == !l.isSprinting && r.isCrouching == l.isCrouching
    ensures r.crouchTarget == l.crouchTarget
    ensures LocomotionOk(l) ==> LocomotionOk(r)
  {
    if l.isCrouching then l else l.(isSprinting := !l.isSprinting)
  }

  /** Two sprint toggles in a row restore the flags. */
  lemma SprintTwiceRestores(l: Locomotion)
    ensures SprintToggled(SprintToggled(l)) == l
  {
  }

  /** A crouch or sprint key press, the crouch press carrying the probe's verdict. */
  datatype LocomotionEvent = CrouchPressed(canStandUp: bool) | SprintPressed

  function ApplyEvents(l: Locomotion, events: seq<LocomotionEvent>): Locomotion
    decreases |events|
  {
    if events == [] then l
    else
      var next := match events[0]
        case CrouchPressed(ok) => CrouchToggled(l, ok)
        case SprintPressed => SprintToggled(l);
      ApplyEvents(next, events[1..])
  }

  /** Any sequence of crouch and sprint presses keeps the flags consistent:
      never sprinting while crouched, and the target matching the crouch flag. */
  lemma {:induction false} LocomotionInvariant(l: Locomotion, events: seq<LocomotionEvent>)
    requires LocomotionOk(l)
    ensures LocomotionOk(ApplyEvents(l, events))
    decreases |events|
  {
    if events != [] {
      var next := match events[0]
        case CrouchPressed(ok) => CrouchToggled(l, ok)
        case SprintPressed => SprintToggled(l);
      LocomotionInvariant(next, events[1..]);
    }
  }

  /** One HandleCrouchTransition step of the crouch parameter. */
  function NextCrouchLerp(crouchLerp: real, crouchTarget: real, t: real): (r: real)
    ensures 0.0 <= crouchLerp <= 1.0 && 0.0 <= crouchTarget <= 1.0 ==> 0.0 <= r <= 1.0
    ensures crouchLerp <= crouchTarget ==> crouchLerp <= r <= crouchTarget
    ensures crouchTarget <= crouchLerp ==> crouchTarget <= r <= crouchLerp
    ensures t >= 1.0 ==> r == crouchTarget
  {
    Lerp(crouchLerp, crouchTarget, t)
  }

  /** A frame of the crouch transition: the crouch target at that frame and
      the interpolation step Time.deltaTime * crouchTransitionSpeed. */
  datatype CrouchFrame = CrouchFrame(target: real, t: real)

  function CrouchLerpAfter(crouchLerp: real, frames: seq<CrouchFrame>): real
    decreases |frames|
  {
    if frames == [] then crouchLerp
    else CrouchLerpAfter(NextCrouchLerp(crouchLerp, frames[0].target, frames[0].t), frames[1..])
  }

  /** Whatever frame times and crouch toggles occur, the crouch parameter stays in [0, 1]. */
  lemma {:induction false} CrouchLerpStaysInUnit(crouchLerp: real, frames: seq<CrouchFrame>)
    requires 0.0 <= crouchLerp <= 1.0
    requires forall i :: 0 <= i < |frames| ==> frames[i].target == 0.0 || frames[i].target == 1.0
    ensures 0.0 <= CrouchLerpAfter(crouchLerp, frames) <= 1.0
    decreases |frames|
  {
    if frames != [] {
      CrouchLerpStaysInUnit(NextCrouchLerp(crouchLerp, frames[0].target, frames[0].t), frames[1..]);
    }
  }

  /** At the two ends of the crouch parameter the controller and camera
      heights are exactly the standing or the crouching values. */
  lemma CrouchEndpoints(standing: real, crouching: real)
    ensures Lerp(standing, crouching, 0.0) == standing
    ensures Lerp(standing, crouching, 1.0) == crouching
    ensures ExtraHeight(standing, crouching, 0.0) == 0.0
  {
  }

  class Player {
    /** Inspector settings; the script never changes them. */
    const walkSpeed: real
    const crouchSpeed: real
    const sprintSpeed: real
    const gravity: real
    const crouchHeight: real
    const standingHeight: real
    const crouchTransitionSpeed: real
    const hasCamera: bool
    const standingCameraY: real
    const crouchingCameraY: real

    var moveInput: Vec2
    var velocity: Vec3
    var isGrounded: bool
    var isCrouching: bool
    var isSprinting: bool
    var crouchLerp: real
    var crouchTarget: real
    /** controller.height */
    var controllerHeight: real
    /** transform.position.y, as far as this script moves it (not through controller.Move) */
    var positionY: real
    /** cameraTransform.localPosition.y, meaningful when there is a camera */
    var cameraY: real
    /** groundCheck.localPosition.y */
    var groundCheckY: real

    ghost predicate Valid()
      reads this
    {
      && 0.0 <= crouchLerp <= 1.0
      && LocomotionOk(Locomotion(isCrouching, isSprinting, crouchTarget))
      && controllerHeight == Lerp(standingHeight, crouchHeight, crouchLerp)
      && (hasCamera ==> cameraY == Lerp(standingCameraY, crouchingCameraY, crouchLerp))
    }

    function Flags(): Locomotion
      reads this
    {
      Locomotion(isCrouching, isSprinting, crouchTarget)
    }

    /** The speed MovePlayer uses now. */
    function Speed(): real
      reads this
    {
      SelectSpeed(isCrouching, isSprinting, crouchSpeed, sprintSpeed, walkSpeed)
    }

    /** CanStandUp: the upward sweep from the head over the missing height plus
        the margin hits nothing. `hitWithin(d)` is the engine's sphere-cast verdict for distance d. */
    function CanStandUp(hitWithin: real -> bool): (r: bool)
      reads this
      ensures crouchLerp <= 0.0 ==> (r <==> !hitWithin(ProbeMargin))
      ensures crouchLerp >= 1.0 ==> (r <==> !hitWithin(standingHeight - crouchHeight + ProbeMargin))
    {
      !hitWithin(ExtraHeight(standingHeight, crouchHeight, crouchLerp) + ProbeMargin)
    }

    /** Awake: the ground-check point is placed from the controller's height as
        it was before, then the camera and the controller take the standing values. */
    constructor (walkSpeed: real, crouchSpeed: real, sprintSpeed: real, gravity: real,
                 crouchHeight: real, standingHeight: real, crouchTransitionSpeed: real,
                 hasCamera: bool, standingCameraY: real, crouchingCameraY: real,
                 initialControllerHeight: real, initialCameraY: real, positionY: real)
      ensures Valid()
      ensures this.walkSpeed == walkSpeed && this.crouchSpeed == crouchSpeed && this.sprintSpeed == sprintSpeed
      ensures this.gravity == gravity && this.crouchHeight == crouchHeight && this.standingHeight == standingHeight
      ensures this.crouchTransitionSpeed == crouchTransitionSpeed && this.hasCamera == hasCamera
      ensures this.standingCameraY == standingCameraY && this.crouchingCameraY == crouchingCameraY
      ensures !isCrouching && !isSprinting && !isGrounded && crouchLerp == 0.0 && crouchTarget == 0.0
      ensures moveInput == Zero2 && velocity == Vec3(0.0, 0.0, 0.0)
      ensures groundCheckY == -(initialControllerHeight / 2.0)
      ensures controllerHeight == standingHeight && this.positionY == positionY
      ensures cameraY == if hasCamera then standingCameraY else initialCameraY
    {
      this.walkSpeed := walkSpeed;
      this.crouchSpeed := crouchSpeed;
      this.sprintSpeed := sprintSpeed;
      this.gravity := gravity;
      this.crouchHeight := crouchHeight;
      this.standingHeight := standingHeight;
      this.crouchTransitionSpeed := crouchTransitionSpeed;
      this.hasCamera := hasCamera;
      this.standingCameraY := standingCameraY;
      this.crouchingCameraY := crouchingCameraY;
      moveInput := Zero2;
      velocity := Vec3(0.0, 0.0, 0.0);
      isGrounded, isCrouching, isSprinting := false, false, false;
      crouchLerp, crouchTarget := 0.0, 0.0;
      this.positionY := positionY;
      groundCheckY := -(initialControllerHeight / 2.0);
      cameraY := if hasCamera then standingCameraY else initialCameraY;
      controllerHeight := standingHeight;
    }

    /** The Move action's performed and canceled callbacks. */
    method OnMovePerformed(value: Vec2)
      modifies this`moveInput
      ensures moveInput == value
    {
      moveInput := value;
    }

    method OnMoveCanceled()
      modifies this`moveInput
      ensures moveInput == Zero2
    {
      moveInput := Zero2;
    }

    /** Update: ground check, crouch transition, planar move, gravity, in that
        order; the two displacements handed to controller.Move are returned. */
    method Update(grounded: bool, deltaTime: real, right: Vec3, forward: Vec3) returns (planar: Vec3, vertical: Vec3)
      requires Valid()
      modifies this`isGrounded, this`velocity, this`crouchLerp, this`controllerHeight,
               this`positionY, this`cameraY, this`groundCheckY
      ensures Valid()
      ensures isGrounded == grounded
      ensures crouchLerp == NextCrouchLerp(old(crouchLerp), crouchTarget, deltaTime * crouchTransitionSpeed)
      ensures planar == Scale(Scale(Add(Scale(right, moveInput.x), Scale(forward, moveInput.y)), Speed()), deltaTime)
      ensures velocity == GroundedVelocity(old(velocity), grounded).(y := GroundedVelocity(old(velocity), grounded).y + gravity * deltaTime)
      ensures vertical == Scale(velocity, deltaTime)
      ensures positionY - controllerHeight / 2.0 == old(positionY - controllerHeight / 2.0)
      ensures groundCheckY == -(controllerHeight / 2.0)
      ensures !hasCamera ==> cameraY == old(cameraY)
    {
      GroundCheck(grounded);
      HandleCrouchTransition(deltaTime);
      planar := MovePlayer(deltaTime, right, forward);
      vertical := ApplyGravity(deltaTime);
    }

    /** GroundCheck, with the sphere cast's verdict passed in. */
    method GroundCheck(grounded: bool)
      modifies this`isGrounded, this`velocity
      ensures isGrounded == grounded
      ensures velocity == GroundedVelocity(old(velocity), grounded)
    {
      isGrounded := grounded;
      if isGrounded && velocity.y < 0.0 {
        velocity := velocity.(y := GroundedFallSpeed);
      }
    }

    /** HandleCrouchTransition: move the crouch parameter towards its target,
        set the controller and camera heights from it, and shift the body by
        half the height change so that the feet stay where they were. */
    method HandleCrouchTransition(deltaTime: real)
      requires Valid()
      modifies this`crouchLerp, this`controllerHeight, this`positionY, this`cameraY, this`groundCheckY
      ensures Valid()
      ensures crouchLerp == NextCrouchLerp(old(crouchLerp), crouchTarget, deltaTime * crouchTransitionSpeed)
      ensures controllerHeight == Lerp(standingHeight, crouchHeight, crouchLerp)
      ensures positionY - controllerHeight / 2.0 == old(positionY - controllerHeight / 2.0)
      ensures hasCamera ==> cameraY == Lerp(standingCameraY, crouchingCameraY, crouchLerp)
      ensures !hasCamera ==> cameraY == old(cameraY)
      ensures groundCheckY == -(controllerHeight / 2.0)
    {
      crouchLerp := Lerp(crouchLerp, crouchTarget, deltaTime * crouchTransitionSpeed);
      var currentHeight := Lerp(standingHeight, crouchHeight, crouchLerp);
      var currentCameraY := Lerp(standingCameraY, crouchingCameraY, crouchLerp);
      var heightDiff := currentHeight - controllerHeight;
      controllerHeight := currentHeight;
      positionY := positionY + heightDiff / 2.0;
      if hasCamera {
        cameraY := currentCameraY;
      }
      groundCheckY := -(controllerHeight / 2.0);
    }

    /** MovePlayer: the planar displacement of this frame, along the
        transform's right and forward axes, at the selected speed. */
    method MovePlayer(deltaTime: real, right: Vec3, forward: Vec3) returns (move: Vec3)
      ensures move == Scale(Scale(Add(Scale(right, moveInput.x), Scale(forward, moveInput.y)), Speed()), deltaTime)
      ensures isCrouching ==> move == Scale(Scale(Add(Scale(right, moveInput.x), Scale(forward, moveInput.y)), crouchSpeed), deltaTime)
    {
      var speed := if isCrouching then crouchSpeed else if isSprinting then sprintSpeed else walkSpeed;
      var direction := Add(Scale(right, moveInput.x), Scale(forward, moveInput.y));
      move := Scale(Scale(direction, speed), deltaTime);
    }

    /** ApplyGravity: vertical speed grows by gravity over the frame, and the
        whole velocity is applied for the frame. */
    method ApplyGravity(deltaTime: real) returns (move: Vec3)
      modifies this`velocity
      ensures velocity == old(velocity).(y := old(velocity).y + gravity * deltaTime)
      ensures move == Scale(velocity, deltaTime)
    {
      velocity := velocity.(y := velocity.y + gravity * deltaTime);
      move := Scale(velocity, deltaTime);
    }

    /** ToggleCrouch, bound to the Crouch action; `hitWithin` answers the clearance sweep. */
    method ToggleCrouch(hitWithin: real -> bool)
      requires Valid()
      modifies this`isCrouching, this`isSprinting, this`crouchTarget
      ensures Valid()
      ensures Flags() == CrouchToggled(old(Flags()), old(CanStandUp(hitWithin)))
    {
      if isCrouching {
        if CanStandUp(hitWithin) {
          isCrouching := false;
          crouchTarget := 0.0;
        }
      } else {
        isCrouching := true;
        isSprinting := false;
        crouchTarget := 1.0;
      }
    }

    /** ToggleSprint, bound to the Sprint action. */
    method ToggleSprint()
      requires Valid()
      modifies this`isSprinting
      ensures Valid()
      ensures Flags() == SprintToggled(old(Flags()))
    {
      if isCrouching {
        return;
      }
      isSprinting := !isSprinting;
    }
  }
}
