/**
 * The sliding door (Door): a key press toggles it between two end points
 * while the player stands in its trigger, and a press is ignored while the
 * door is moving.
 *
 * The movement coroutine is split into what it does when it starts (mark the
 * door as moving toward its target) and what it does when it ends (put the
 * door exactly on the target and clear the moving flag); the frames of
 * interpolation in between are replaced by a MovementFinished event. The key
 * press of the frame and the tag of the collider in a trigger callback are
 * inputs.
 *
 * The step functions below are the specification; each method of the class
 * Door is proved to move its fields exactly as the matching function says.
 */
module DoorBehaviour {

  /** A position in space. */
  datatype Vec3 = Vec3(x: real, y: real, z: real) {
    function Plus(o: Vec3): Vec3 {
      Vec3(x + o.x, y + o.y, z + o.z)
    }
  }

  const Zero: Vec3 := Vec3(0.0, 0.0, 0.0)
  const PlayerTag: string := "Player"

  /** Every field of the door, as one value; moveTarget is the argument of the running coroutine. */
  datatype DoorState = DoorState(
    position: Vec3,
    doorDown: Vec3,
    doorUp: Vec3,
    doorIsUp: bool,
    playerInRange: bool,
    isMoving: bool,
    moveTarget: Vec3)

  /** An event the engine delivers to the door. */
  datatype DoorEvent =
    | Frame(keyDown: bool)       // Update, with whether the key went down this frame
    | TriggerStay(tag: string)   // OnTriggerStay with a collider of this tag
    | TriggerExit(tag: string)   // OnTriggerExit with a collider of this tag
    | MovementFinished           // the movement coroutine reached its target

  /** The end point that matches doorIsUp. */
  function Endpoint(d: DoorState): Vec3 {
    if d.doorIsUp then d.doorUp else d.doorDown
  }

  /** At rest the door sits on the end point doorIsUp names; while moving, it heads there. */
  predicate Consistent(d: DoorState) {
    if d.isMoving then d.moveTarget == Endpoint(d) else d.position == Endpoint(d)
  }

  /** The toggle guard of Update. */
  predicate CanToggle(d: DoorState, keyDown: bool) {
    d.playerInRange && keyDown && !d.isMoving
  }

  /** Start: the current position is the lower end point, the upper one is offset from it. */
  function StartStep(d: DoorState, offset: Vec3): (r: DoorState)
    ensures r.doorDown == d.position && r.doorUp == d.position.Plus(offset)
    ensures r == d.(doorDown := r.doorDown, doorUp := r.doorUp)
    ensures !d.doorIsUp && !d.isMoving ==> Consistent(r)
  {
    d.(doorDown := d.position, doorUp := d.position.Plus(offset))
  }

  /**
   * The start of MoveDoor: the door is marked as moving toward the target; if
   * it is already there, the coroutine ends at once.
   */
  function BeginMove(d: DoorState, target: Vec3): (r: DoorState)
    ensures r.moveTarget == target
    ensures r.isMoving <==> d.position != target
    ensures r.position == d.position
    ensures r == d.(isMoving := r.isMoving, moveTarget := target)
  {
    var m := d.(isMoving := true, moveTarget := target);
    if m.position == target then m.(position := target, isMoving := false) else m
  }

  /** Update: toggle and start moving toward the new end point, when the guard allows. */
  function UpdateStep(d: DoorState, keyDown: bool): (r: DoorState)
    // without the guard nothing changes
    ensures !CanToggle(d, keyDown) ==> r == d
    // a toggle flips doorIsUp and aims at the end point that matches it
    ensures CanToggle(d, keyDown) ==>
              r.doorIsUp == !d.doorIsUp && r.moveTarget == Endpoint(r) && r.position == d.position
    ensures CanToggle(d, keyDown) ==> (r.isMoving <==> d.position != Endpoint(r))
    ensures r.doorDown == d.doorDown && r.doorUp == d.doorUp && r.playerInRange == d.playerInRange
    ensures Consistent(d) ==> Consistent(r)
  {
    if CanToggle(d, keyDown) then
      var t := d.(doorIsUp := !d.doorIsUp);
      BeginMove(t, Endpoint(t))
    else d
  }

  /** The end of MoveDoor: the door is exactly on the target and no longer moving. */
  function FinishStep(d: DoorState): (r: DoorState)
    ensures d.isMoving ==> r.position == d.moveTarget && !r.isMoving
    ensures !d.isMoving ==> r == d
    ensures r == d.(position := r.position, isMoving := r.isMoving)
    ensures Consistent(d) ==> Consistent(r)
  {
    if d.isMoving then d.(position := d.moveTarget, isMoving := false) else d
  }

  /** OnTriggerStay: a player in the trigger puts the player in range; other tags do nothing. */
  function StayStep(d: DoorState, tag: string): (r: DoorState)
    ensures r.playerInRange == (tag == PlayerTag || d.playerInRange)
    ensures r == d.(playerInRange := r.playerInRange)
  {
    if tag == PlayerTag then d.(playerInRange := true) else d
  }

  /** OnTriggerExit: a player leaving the trigger is out of range; other tags do nothing. */
  function ExitStep(d: DoorState, tag: string): (r: DoorState)
    ensures r.playerInRange == (tag != PlayerTag && d.playerInRange)
    ensures r == d.(playerInRange := r.playerInRange)
  {
    if tag == PlayerTag then d.(playerInRange := false) else d
  }

  function Apply(d: DoorState, e: DoorEvent): DoorState {
    match e
    case Frame(k) => UpdateStep(d, k)
    case TriggerStay(tag) => StayStep(d, tag)
    case TriggerExit(tag) => ExitStep(d, tag)
    case MovementFinished => FinishStep(d)
  }

  /** The door after a sequence of events. */
  function RunDoor(d: DoorState, es: seq<DoorEvent>): DoorState
    decreases |es|
  {
    if es == [] then d else RunDoor(Apply(d, es[0]), es[1..])
  }

  /** No sequence of events takes the door off its end points or its course. */
  lemma {:induction false} RunDoorConsistent(d: DoorState, es: seq<DoorEvent>)
    requires Consistent(d)
    ensures Consistent(RunDoor(d, es))
    ensures RunDoor(d, es).doorDown == d.doorDown && RunDoor(d, es).doorUp == d.doorUp
    decreases |es|
  {
    if es != [] {
      RunDoorConsistent(Apply(d, es[0]), es[1..]);
    }
  }

  /**
   * Once the door is moving, it keeps moving toward the same target until the
   * movement finishes: every key press in between is ignored.
   */
  lemma {:induction false} MovingIgnoresKeys(d: DoorState, es: seq<DoorEvent>)
    requires d.isMoving
    requires forall i :: 0 <= i < |es| ==> !es[i].MovementFinished?
    ensures RunDoor(d, es) == d.(playerInRange := RunDoor(d, es).playerInRange)
    decreases |es|
  {
    if es != [] {
      assert !es[0].MovementFinished?;
      var d1 := Apply(d, es[0]);
      assert d1 == d.(playerInRange := d1.playerInRange);
      forall i | 0 <= i < |es[1..]| ensures !es[1..][i].MovementFinished? {
        assert es[1..][i] == es[i + 1];
      }
      MovingIgnoresKeys(d1, es[1..]);
    }
  }

  /** Two toggles, each run to its end, bring the door back to where it was. */
  lemma ToggleTwiceRestores(d: DoorState)
    requires Consistent(d) && !d.isMoving && d.playerInRange
    ensures FinishStep(UpdateStep(FinishStep(UpdateStep(d, true)), true)) == d.(moveTarget := Endpoint(d))
  {
  }

  // ---------------------------------------------------------------------------
  // The door object
  // ---------------------------------------------------------------------------

  class Door {
    const doorUpOffset: Vec3

    var position: Vec3  // transform.position
    var doorUp: Vec3
    var doorDown: Vec3
    var doorIsUp: bool
    var playerInRange: bool
    var isMoving: bool
    var moveTarget: Vec3

    function State(): DoorState
      reads this
    {
      DoorState(position, doorDown, doorUp, doorIsUp, playerInRange, isMoving, moveTarget)
    }

    ghost predicate Valid()
      reads this
    {
      Consistent(State()) && doorUp == doorDown.Plus(doorUpOffset)
    }

    /** The field initialisers, then Start. */
    constructor (initialPosition: Vec3, offset: Vec3)
      ensures doorUpOffset == offset
      ensures Valid()
      ensures State() == DoorState(initialPosition, initialPosition, initialPosition.Plus(offset),
                                   false, false, false, Zero)
    {
      doorUpOffset := offset;
      position := initialPosition;
      doorUp := Zero;
      doorDown := Zero;
      doorIsUp := false;
      playerInRange := false;
      isMoving := false;
      moveTarget := Zero;
      new;
      Start();
    }

    method Start()
      modifies this
      ensures State() == StartStep(old(State()), doorUpOffset)
    {
      doorDown := position;
      doorUp := doorDown.Plus(doorUpOffset);
    }

    method Update(keyDown: bool)
      requires Valid()
      modifies this
      ensures Valid()
      ensures State() == UpdateStep(old(State()), keyDown)
    {
      if playerInRange && keyDown && !isMoving {
        doorIsUp := !doorIsUp;
        // StopAllCoroutines() finds none running: the guard holds only when no movement is under way
        MoveDoor(if doorIsUp then doorUp else doorDown);
      }
    }

    /** The part of the MoveDoor coroutine that runs before its first frame of interpolation. */
    method MoveDoor(target: Vec3)
      modifies this
      ensures State() == BeginMove(old(State()), target)
    {
      isMoving := true;
      moveTarget := target;
      if position == target {
        position := target;
        isMoving := false;
      }
    }

    /** The last two statements of MoveDoor, once the interpolation is done. */
    method MovementFinished()
      requires Valid()
      modifies this
      ensures Valid()
      ensures State() == FinishStep(old(State()))
    {
      if isMoving {
        position := moveTarget;
        isMoving := false;
      }
    }

    method OnTriggerStay(tag: string)
      requires Valid()
      modifies this
      ensures Valid()
      ensures State() == StayStep(old(State()), tag)
    {
      if tag == PlayerTag {
        playerInRange := true;
      }
    }

    method OnTriggerExit(tag: string)
      requires Valid()
      modifies this
      ensures Valid()
      ensures State() == ExitStep(old(State()), tag)
    {
      if tag == PlayerTag {
        playerInRange := false;
      }
    }
  }
}
