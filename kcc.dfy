/** The kinematic character controller's per-entity data, as far as the
    processors of this project read and write it, and the navigation-target
    lookup that Teleport and JumpPad share.

    The controller itself (its movement integrator, `Teleport`,
    `SetKinematicVelocity`, `Jump`, `SetLookRotation`) is an external addon;
    each of those calls is modelled as the plain write of the field it sets. */
module Kcc {
  import opened Engine

  /** How the controller is told to look: along a target's rotation
      (Teleport) or toward a horizontal direction (NPC steering). The
      quaternion maths that turns either into pitch and yaw is not modelled. */
  datatype Look = Oriented(rotation: Rotation) | Facing(direction: Vec3)

  class KCC {
    const entity: EntityRef
    var kinematicVelocity: Vec3
    var dynamicVelocity: Vec3
    var kinematicSpeed: real
    var inputDirection: Vec3
    /** Where the controller is (the position `Teleport` sets). */
    var targetPosition: Vec3
    var look: Look
    var isGrounded: bool
    var wasGrounded: bool
    var gravity: Vec3
    var deltaTime: real
    /** One-tick transient accumulators. */
    var externalDelta: Vec3
    var externalForce: Vec3
    var externalImpulse: Vec3
    /** The impulse of the jump requested this tick. */
    var jumpImpulse: Vec3
    /** The stage flag set by `SuppressProcessors<KCCProcessor>()`: no other
        processor may act for the rest of this tick. */
    var processorsSuppressed: bool
  }

  /** The `NavigationSource` component: the destinations a teleporter or
      jump pad may send the controller to. */
  datatype NavigationSource = NavigationSource(targets: seq<EntityRef>)

  /** The targets of the processor's entity, or none when the processor has
      no entity or that entity has no `NavigationSource`. */
  function TargetsOf(processorEntity: Option<EntityRef>, sources: map<EntityRef, NavigationSource>): seq<EntityRef> {
    if processorEntity.Some? && processorEntity.value in sources then sources[processorEntity.value].targets else []
  }

  /** Drawing index `i` yields a destination that has a transform. */
  predicate Resolves(processorEntity: Option<EntityRef>, sources: map<EntityRef, NavigationSource>,
                     transforms: map<EntityRef, Transform3D>, i: int)
  {
    var targets := TargetsOf(processorEntity, sources);
    0 <= i < |targets| && targets[i] in transforms
  }

  /** The shared decline guards of Teleport and JumpPad `OnEnter`: no
      entity, no `NavigationSource`, no targets, or a drawn target without a
      `Transform3D` all give `None`; otherwise the drawn target's transform. */
  method ResolveNavigationTarget(processorEntity: Option<EntityRef>, sources: map<EntityRef, NavigationSource>,
                                 transforms: map<EntityRef, Transform3D>)
    returns (target: Option<Transform3D>, index: int)
    ensures |TargetsOf(processorEntity, sources)| == 0 ==> target.None?
    ensures |TargetsOf(processorEntity, sources)| > 0 ==> 0 <= index < |TargetsOf(processorEntity, sources)|
    ensures target.Some? <==> Resolves(processorEntity, sources, transforms, index)
    ensures target.Some? ==> target.value == transforms[TargetsOf(processorEntity, sources)[index]]
  {
    if processorEntity.None? || processorEntity.value !in sources {
      return None, -1;
    }
    var targets := sources[processorEntity.value].targets;
    if |targets| == 0 {
      return None, -1;
    }
    index := RngNext(0, |targets|);
    if targets[index] !in transforms {
      return None, index;
    }
    target := Some(transforms[targets[index]]);
  }
}
