/** The jump-pad processor: on contact it launches the controller on a
    ballistic arc toward a random destination, and while the flight lasts it
    alone moves the controller. */
module JumpPadProcessor {
  import opened Engine
  import opened Kcc

  /** Priority a processor gets when it does not declare one. */
  const DefaultPriority: real := 0.0

  /** `JumpPadProcessor.GetPriority`: the jump pad runs before the
      processors that keep the default priority, so its `BeforeMove` is the
      first to act and can suppress them. */
  function GetPriority(): (priority: real)
    ensures priority == 1000.0
    ensures priority > DefaultPriority
  {
    1000.0
  }

  /** Time to the apex of the flight: the free-fall time over the vertical
      offset plus half a tick, which makes up for gravity being first
      applied one tick late. `sqrt` is the engine's fixed-point square root. */
  function ApexTime(offset: Vec3, gravity: Vec3, deltaTime: real, sqrt: real -> real): real
    requires gravity.y != 0.0
  {
    sqrt(-2.0 * offset.y / gravity.y) + deltaTime * 0.5
  }

  /** Launch velocity that covers the horizontal offset in `apexTime` and
      whose vertical part is used up by gravity in the same time. */
  function LaunchVelocity(offset: Vec3, gravity: Vec3, apexTime: real): Vec3
    requires apexTime != 0.0
  {
    Sub(Div(Vec3(offset.x, 0.0, offset.z), apexTime), Scale(Vec3(0.0, gravity.y, 0.0), apexTime))
  }

  /** Under constant gravity, the launch velocity has covered exactly the
      horizontal offset at `apexTime`, and its vertical speed is zero then. */
  lemma LaunchReachesOffsetAtApex(offset: Vec3, gravity: Vec3, apexTime: real)
    requires apexTime != 0.0
    ensures var v := LaunchVelocity(offset, gravity, apexTime);
            && v.x * apexTime == offset.x && v.z * apexTime == offset.z
            && v.y + gravity.y * apexTime == 0.0
  {
  }

  /** Without the half-tick term, the top of the arc is exactly the height
      of the destination: after `root` seconds the controller has risen by
      `offset.y` and covered the horizontal offset. */
  lemma ApexHeightIsDestinationHeight(offset: Vec3, gravity: Vec3, root: real)
    requires gravity.y != 0.0 && root > 0.0
    requires root * root == -2.0 * offset.y / gravity.y
    ensures var v := LaunchVelocity(offset, gravity, root);
            && v.y * root + gravity.y * root * root / 2.0 == offset.y
            && v.x * root == offset.x && v.z * root == offset.z
  {
  }

  /** `JumpPadProcessor.OnEnter`. `index` is the destination drawn from
      the pad's targets. Declines, leaving the controller as it was, exactly
      when no destination with a transform is drawn. Otherwise: both
      velocities cleared, position re-set to the current target position,
      grounding cleared, and the dynamic velocity set to the launch velocity
      toward the drawn destination. */
  method OnEnter(kcc: KCC, processorEntity: Option<EntityRef>, sources: map<EntityRef, NavigationSource>,
                 transforms: map<EntityRef, Transform3D>, sqrt: real -> real)
    returns (entered: bool, ghost index: int)
    requires forall x :: 0.0 <= sqrt(x)
    requires kcc.gravity.y != 0.0 && kcc.deltaTime > 0.0
    modifies kcc
    ensures |TargetsOf(processorEntity, sources)| > 0 ==> 0 <= index < |TargetsOf(processorEntity, sources)|
    ensures entered <==> Resolves(processorEntity, sources, transforms, index)
    ensures !entered ==> unchanged(kcc)
    ensures entered ==>
              var offset := Sub(transforms[TargetsOf(processorEntity, sources)[index]].position, old(kcc.targetPosition));
              var apexTime := ApexTime(offset, old(kcc.gravity), old(kcc.deltaTime), sqrt);
              && apexTime > 0.0
              && kcc.dynamicVelocity == LaunchVelocity(offset, old(kcc.gravity), apexTime)
    ensures entered ==>
              && kcc.kinematicVelocity == Zero
              && kcc.targetPosition == old(kcc.targetPosition)
              && !kcc.isGrounded
              && kcc.wasGrounded == old(kcc.wasGrounded)
              && kcc.kinematicSpeed == old(kcc.kinematicSpeed) && kcc.inputDirection == old(kcc.inputDirection)
              && kcc.look == old(kcc.look)
              && kcc.gravity == old(kcc.gravity) && kcc.deltaTime == old(kcc.deltaTime)
              && kcc.externalDelta == old(kcc.externalDelta) && kcc.externalForce == old(kcc.externalForce)
              && kcc.externalImpulse == old(kcc.externalImpulse) && kcc.jumpImpulse == old(kcc.jumpImpulse)
              && kcc.processorsSuppressed == old(kcc.processorsSuppressed)
  {
    var target, drawn := ResolveNavigationTarget(processorEntity, sources, transforms);
    index := drawn;
    if target.None? {
      return false, index;
    }
    var navigationTarget := target.value;

    kcc.kinematicVelocity := Zero;
    kcc.dynamicVelocity := Zero;

    // Teleport to where the controller already is: cancels pending movement.
    kcc.targetPosition := kcc.targetPosition;

    kcc.isGrounded := false;

    var offset := Sub(navigationTarget.position, kcc.targetPosition);
    var apexTime := ApexTime(offset, kcc.gravity, kcc.deltaTime, sqrt);
    var velocity := LaunchVelocity(offset, kcc.gravity, apexTime);

    kcc.dynamicVelocity := velocity;
    return true, index;
  }

  /** `JumpPadProcessor.OnExit`: the contact may close only after two
      grounded ticks in a row. */
  function OnExit(kcc: KCC): (closes: bool)
    reads kcc
    ensures closes ==> kcc.isGrounded && kcc.wasGrounded
    ensures !kcc.isGrounded || !kcc.wasGrounded ==> !closes
  {
    kcc.isGrounded && kcc.wasGrounded
  }

  /** `JumpPadProcessor.BeforeMove`: one tick of gravity onto the dynamic
      velocity, the transient accumulators consumed, and every other
      processor suppressed for the rest of the tick. */
  method BeforeMove(kcc: KCC)
    modifies kcc
    ensures kcc.dynamicVelocity == Add(old(kcc.dynamicVelocity), Scale(kcc.gravity, kcc.deltaTime))
    ensures kcc.externalDelta == Zero && kcc.externalForce == Zero && kcc.externalImpulse == Zero
    ensures kcc.processorsSuppressed
    ensures && kcc.kinematicVelocity == old(kcc.kinematicVelocity) && kcc.kinematicSpeed == old(kcc.kinematicSpeed)
            && kcc.inputDirection == old(kcc.inputDirection) && kcc.targetPosition == old(kcc.targetPosition)
            && kcc.look == old(kcc.look) && kcc.isGrounded == old(kcc.isGrounded)
            && kcc.wasGrounded == old(kcc.wasGrounded) && kcc.gravity == old(kcc.gravity)
            && kcc.deltaTime == old(kcc.deltaTime) && kcc.jumpImpulse == old(kcc.jumpImpulse)
  {
    kcc.dynamicVelocity := Add(kcc.dynamicVelocity, Scale(kcc.gravity, kcc.deltaTime));

    kcc.externalDelta := Zero;
    kcc.externalForce := Zero;
    kcc.externalImpulse := Zero;

    kcc.processorsSuppressed := true;
  }
}
