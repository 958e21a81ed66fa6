/** FirstPersonCameraController: mouse or stick look. Each frame the look
    input, scaled by sensitivity and frame time, turns the player body
    around its vertical axis (yaw) and is accumulated into the camera's
    pitch, which is clamped to [-verticalClamp, verticalClamp] and applied as
    an absolute local rotation.

    The body's rotation is kept as the running sum of yaw deltas it was given
    (engine angle wrapping is not modelled); the camera's local rotation as
    the pitch of the Euler triple it was last set to. */
module CameraController {
  import opened Engine
  import opened Mathf

  /** One frame's pitch update: subtract the vertical look delta, then clamp. */
  function PitchStep(xRotation: real, mouseY: real, verticalClamp: real): (r: real)
    ensures verticalClamp >= 0.0 ==> -verticalClamp <= r <= verticalClamp
    ensures -verticalClamp <= xRotation - mouseY <= verticalClamp ==> r == xRotation - mouseY
    ensures -verticalClamp <= xRotation <= verticalClamp && mouseY == 0.0 ==> r == xRotation
  {
    Clamp(xRotation - mouseY, -verticalClamp, verticalClamp)
  }

  /** The pitch after a run of frames, given each frame's vertical delta
      lookInput.y * sensitivity * Time.deltaTime. */
  function PitchAfter(xRotation: real, deltas: seq<real>, verticalClamp: real): real
    decreases |deltas|
  {
    if deltas == [] then xRotation
    else PitchAfter(PitchStep(xRotation, deltas[0], verticalClamp), deltas[1..], verticalClamp)
  }

  /** For any input sequence the pitch ends inside the clamp range: after at
      least one frame always, and from any start already inside it. */
  lemma {:induction false} PitchStaysClamped(xRotation: real, deltas: seq<real>, verticalClamp: real)
    requires verticalClamp >= 0.0
    requires deltas != [] || -verticalClamp <= xRotation <= verticalClamp
    ensures -verticalClamp <= PitchAfter(xRotation, deltas, verticalClamp) <= verticalClamp
    decreases |deltas|
  {
    if deltas != [] {
      PitchStaysClamped(PitchStep(xRotation, deltas[0], verticalClamp), deltas[1..], verticalClamp);
    }
  }

  /** Frames without look input leave an in-range pitch where it is. */
  lemma {:induction false} StillInputKeepsPitch(xRotation: real, deltas: seq<real>, verticalClamp: real)
    requires -verticalClamp <= xRotation <= verticalClamp
    requires forall i :: 0 <= i < |deltas| ==> deltas[i] == 0.0
    ensures PitchAfter(xRotation, deltas, verticalClamp) == xRotation
    decreases |deltas|
  {
    if deltas != [] {
      StillInputKeepsPitch(PitchStep(xRotation, deltas[0], verticalClamp), deltas[1..], verticalClamp);
    }
  }

  class Camera {
    /** Serialized settings; the script never changes them. */
    const sensitivity: real
    const verticalClamp: real

    var lookInput: Vec2
    var xRotation: real
    /** Whether Start found a parent transform to act as the player body. */
    var hasBody: bool
    /** The total yaw the body has been rotated by. */
    var bodyYaw: real
    /** The pitch of transform.localRotation, set as Quaternion.Euler(pitch, 0, 0). */
    var localPitch: real

    constructor (sensitivity: real, verticalClamp: real)
      ensures this.sensitivity == sensitivity && this.verticalClamp == verticalClamp
      ensures lookInput == Zero2 && xRotation == 0.0 && !hasBody && bodyYaw == 0.0 && localPitch == 0.0
    {
      this.sensitivity := sensitivity;
      this.verticalClamp := verticalClamp;
      lookInput := Zero2;
      xRotation := 0.0;
      hasBody := false;
      bodyYaw := 0.0;
      localPitch := 0.0;
    }

    /** Start: the parent transform, if any, is the body (a missing one only warns). */
    method Start(hasParent: bool)
      modifies this`hasBody
      ensures hasBody == hasParent
    {
      hasBody := hasParent;
    }

    /** The Look action's performed callback. */
    method OnLookPerformed(value: Vec2)
      modifies this`lookInput
      ensures lookInput == value
    {
      lookInput := value;
    }

    /** The Look action's canceled callback: the input drops to zero. */
    method OnLookCanceled()
      modifies this`lookInput
      ensures lookInput == Zero2
    {
      lookInput := Zero2;
    }

    /** Update: the horizontal delta turns the body (if there is one), the
        vertical delta moves the clamped pitch, and the camera's local rotation
        is set from that absolute pitch. */
    method Update(deltaTime: real)
      modifies this`xRotation, this`localPitch, this`bodyYaw
      ensures xRotation == PitchStep(old(xRotation), lookInput.y * sensitivity * deltaTime, verticalClamp)
      ensures verticalClamp >= 0.0 ==> -verticalClamp <= xRotation <= verticalClamp
      ensures localPitch == xRotation
      ensures bodyYaw == old(bodyYaw) + (if hasBody then lookInput.x * sensitivity * deltaTime else 0.0)
      ensures lookInput == Zero2 && -verticalClamp <= old(xRotation) <= verticalClamp ==>
        xRotation == old(xRotation) && bodyYaw == old(bodyYaw)
    {
      var mouseX := lookInput.x * sensitivity * deltaTime;
      var mouseY := lookInput.y * sensitivity * deltaTime;
      xRotation := xRotation - mouseY;
      xRotation := Clamp(xRotation, -verticalClamp, verticalClamp);
      localPitch := xRotation;
      if hasBody {
        bodyYaw := bodyYaw + mouseX;
      }
    }
  }
}
