/** The NPC system: walks each NPC toward a random baked waypoint, jumps
    when it seems stuck and picks a new waypoint when it is stuck for long
    or has arrived. Only squared horizontal distances are compared. */
module NPCSystem {
  import opened Engine
  import opened Kcc
  import opened Gameplay

  /** The `NPC` component. */
  class NPC {
    /** Seconds since the NPC last made a metre of horizontal progress. */
    var checkTime: real
    /** Where the NPC stood when the stuck timer was last reset. */
    var checkPosition: Vec3
    /** The waypoint it walks to; the zero vector means "none". */
    var targetPosition: Vec3

    /** The target is either unset or one of the baked waypoints. */
    ghost predicate Valid(data: GameplayData)
      reads this
    {
      targetPosition == Zero || exists w :: w in data.waypoints && w.position == targetPosition
    }
  }

  /** Horizontal squared distance from `b` to `a`. */
  function HorizontalSqrDistance(a: Vec3, b: Vec3): real {
    SqrMagnitude(XOZ(Sub(a, b)))
  }

  /** Stuck for more than five seconds, or no target: pick a new one. */
  predicate NeedsNewTarget(targetPosition: Vec3, checkTime: real) {
    targetPosition == Zero || checkTime > 5.0
  }

  /** `NPCSystem.Update` for one NPC standing at `position`. `goal` is the
      target it steers toward this tick, after any re-targeting. */
  method Update(npc: NPC, kcc: KCC, position: Vec3, deltaTime: real, data: GameplayData)
    returns (ghost goal: Vec3)
    requires NeedsNewTarget(npc.targetPosition, npc.checkTime + deltaTime) ==> |data.waypoints| > 0
    modifies npc, kcc
    // the stuck timer runs first, and a grounded NPC stuck for a second jumps
    ensures kcc.jumpImpulse == if old(npc.checkTime) + deltaTime > 1.0 && old(kcc.isGrounded)
                               then Scale(Up, 5.0) else old(kcc.jumpImpulse)
    // re-targeting
    ensures NeedsNewTarget(old(npc.targetPosition), old(npc.checkTime) + deltaTime) ==>
              exists w :: w in data.waypoints && w.position == goal
    ensures !NeedsNewTarget(old(npc.targetPosition), old(npc.checkTime) + deltaTime) ==> goal == old(npc.targetPosition)
    // progress of more than a metre resets the stuck timer
    ensures HorizontalSqrDistance(old(npc.checkPosition), position) > 1.0 ==> npc.checkPosition == position
    ensures HorizontalSqrDistance(old(npc.checkPosition), position) <= 1.0 ==> npc.checkPosition == old(npc.checkPosition)
    ensures npc.checkTime ==
              if HorizontalSqrDistance(old(npc.checkPosition), position) > 1.0
                 || NeedsNewTarget(old(npc.targetPosition), old(npc.checkTime) + deltaTime)
              then 0.0 else old(npc.checkTime) + deltaTime
    // arrival clears the target and leaves the controller alone; otherwise steer
    ensures HorizontalSqrDistance(goal, position) < 1.0 ==>
              && npc.targetPosition == Zero
              && kcc.look == old(kcc.look) && kcc.inputDirection == old(kcc.inputDirection)
              && kcc.kinematicSpeed == old(kcc.kinematicSpeed)
    ensures HorizontalSqrDistance(goal, position) >= 1.0 ==>
              && npc.targetPosition == goal
              && kcc.look == Facing(XOZ(Sub(goal, position)))
              && kcc.inputDirection == XOZ(Sub(goal, position))
              && kcc.kinematicSpeed == 4.0
    // the controller's other data is untouched
    ensures && kcc.kinematicVelocity == old(kcc.kinematicVelocity) && kcc.dynamicVelocity == old(kcc.dynamicVelocity)
            && kcc.targetPosition == old(kcc.targetPosition) && kcc.isGrounded == old(kcc.isGrounded)
            && kcc.wasGrounded == old(kcc.wasGrounded) && kcc.gravity == old(kcc.gravity)
            && kcc.deltaTime == old(kcc.deltaTime) && kcc.externalDelta == old(kcc.externalDelta)
            && kcc.externalForce == old(kcc.externalForce) && kcc.externalImpulse == old(kcc.externalImpulse)
            && kcc.processorsSuppressed == old(kcc.processorsSuppressed)
    // what the code keeps true of every NPC
    ensures old(npc.Valid(data)) ==> npc.Valid(data)
    ensures npc.checkTime <= 5.0
    ensures old(npc.checkTime) + deltaTime >= 0.0 ==> npc.checkTime >= 0.0
  {
    npc.checkTime := npc.checkTime + deltaTime;

    if npc.checkTime > 1.0 && kcc.isGrounded {
      kcc.jumpImpulse := Scale(Up, 5.0);
    }

    if npc.targetPosition == Zero || npc.checkTime > 5.0 {
      npc.checkTime := 0.0;
      var waypoint := GetRandomWaypoint(data);
      npc.targetPosition := waypoint.position;
    }
    goal := npc.targetPosition;

    var toCheckPosition := XOZ(Sub(npc.checkPosition, position));
    if SqrMagnitude(toCheckPosition) > 1.0 {
      npc.checkPosition := position;
      npc.checkTime := 0.0;
    }

    var toTargetPosition := XOZ(Sub(npc.targetPosition, position));
    if SqrMagnitude(toTargetPosition) < 1.0 {
      npc.targetPosition := Zero;
    } else {
      kcc.look := Facing(toTargetPosition);
      kcc.inputDirection := toTargetPosition;
      kcc.kinematicSpeed := 4.0;
    }
  }
}
