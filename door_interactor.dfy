/** DoorInteractor: each frame a forward ray from the camera looks for a
    door; the interact action then toggles the door last found. The ray
    cast is outside the model: its result is passed in. */
module DoorInteraction {
  import opened Engine
  import opened DoorOpen

  /** What the ray cast reported: no hit, or a hit on a collider whose
      Door_open component (possibly missing) is given. */
  datatype RaycastHit = Miss | Hit(door: Door?)

  /** The door a ray result offers: one only when the ray hit a collider that carries a door. */
  function Candidate(hit: RaycastHit): (r: Door?)
    ensures r != null <==> hit.Hit? && hit.door != null
    ensures r != null ==> r == hit.door
  {
    if hit.Hit? then hit.door else null
  }

  class Interactor {
    /** Whether an interaction prompt object is assigned. */
    const hasPrompt: bool
    /** The prompt's active flag (meaningful when there is a prompt). */
    var promptActive: bool
    var currentDoor: Door?

    constructor (hasPrompt: bool, promptActive: bool)
      ensures this.hasPrompt == hasPrompt && this.promptActive == promptActive && currentDoor == null
    {
      this.hasPrompt := hasPrompt;
      this.promptActive := promptActive;
      currentDoor := null;
    }

    /** Start: the prompt, if any, is hidden. */
    method Start()
      modifies this`promptActive
      ensures promptActive == (if hasPrompt then false else old(promptActive))
    {
      if hasPrompt {
        promptActive := false;
      }
    }

    /** Update runs CheckForDoor. */
    method Update(hit: RaycastHit)
      modifies this`currentDoor, this`promptActive
      ensures currentDoor == Candidate(hit)
      ensures promptActive == (if currentDoor != null && hasPrompt then true else old(promptActive))
    {
      CheckForDoor(hit);
    }

    /** CheckForDoor: forget the candidate, then adopt the door the ray hit,
        if any, and show the prompt. The prompt is never hidden here. */
    method CheckForDoor(hit: RaycastHit)
      modifies this`currentDoor, this`promptActive
      ensures currentDoor == Candidate(hit)
      ensures promptActive == (if currentDoor != null && hasPrompt then true else old(promptActive))
      ensures promptActive ==> old(promptActive) || (currentDoor != null && hasPrompt)
    {
      currentDoor := null;
      if hit.Hit? {
        var door := hit.door;
        if door != null {
          currentDoor := door;
          if hasPrompt {
            promptActive := true;
          }
          return;
        }
      }
    }

    /** TryInteract, bound to the Interact action: nothing without a
        candidate, otherwise exactly one Interact on that door. */
    method TryInteract(current: Vec3)
      requires currentDoor != null ==> currentDoor.Valid()
      modifies currentDoor
      ensures currentDoor == old(currentDoor)
      ensures currentDoor != null ==> currentDoor.Valid() && currentDoor.State() == Toggle(old(currentDoor.State()), current)
    {
      if currentDoor != null {
        currentDoor.Interact(current);
      }
    }
  }
}
