/** The teleport processor: on first contact it moves the controller to a
    random destination of the touched teleporter. */
module TeleportProcessor {
  import opened Engine
  import opened Kcc

  /** `TeleportProcessor.OnEnter`. `index` is the destination drawn from
      the teleporter's targets. Declines, leaving the controller as it was,
      exactly when no destination with a transform is drawn; otherwise stops
      the controller dead, places it exactly on the drawn destination, turns
      it to the destination's facing and starts tracking the contact. */
  method OnEnter(kcc: KCC, processorEntity: Option<EntityRef>, sources: map<EntityRef, NavigationSource>,
                 transforms: map<EntityRef, Transform3D>)
    returns (entered: bool, ghost index: int)
    modifies kcc
    ensures |TargetsOf(processorEntity, sources)| > 0 ==> 0 <= index < |TargetsOf(processorEntity, sources)|
    ensures entered <==> Resolves(processorEntity, sources, transforms, index)
    ensures !entered ==> unchanged(kcc)
    ensures entered ==>
              var destination := transforms[TargetsOf(processorEntity, sources)[index]];
              && kcc.targetPosition == destination.position
              && kcc.look == Oriented(destination.rotation)
    ensures entered ==> kcc.kinematicVelocity == Zero && kcc.dynamicVelocity == Zero
    ensures entered ==>
              && kcc.kinematicSpeed == old(kcc.kinematicSpeed) && kcc.inputDirection == old(kcc.inputDirection)
              && kcc.isGrounded == old(kcc.isGrounded) && kcc.wasGrounded == old(kcc.wasGrounded)
              && kcc.gravity == old(kcc.gravity) && kcc.deltaTime == old(kcc.deltaTime)
              && kcc.externalDelta == old(kcc.externalDelta) && kcc.externalForce == old(kcc.externalForce)
              && kcc.externalImpulse == old(kcc.externalImpulse) && kcc.jumpImpulse == old(kcc.jumpImpulse)
              && kcc.processorsSuppressed == old(kcc.processorsSuppressed)
  {
    var target, drawn := ResolveNavigationTarget(processorEntity, sources, transforms);
    index := drawn;
    if target.None? {
      return false, index;
    }
    var destination := target.value;

    kcc.kinematicVelocity := Zero;
    kcc.dynamicVelocity := Zero;

    kcc.targetPosition := destination.position;
    kcc.look := Oriented(destination.rotation);

    return true, index;
  }
}
