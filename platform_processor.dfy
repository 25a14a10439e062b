/** The platform processor: keeps a platform's rider set in step with the
    controllers touching it, so that `PlatformSystem.Update` carries them. */
module PlatformProcessor {
  import opened Engine
  import opened PlatformSystem

  /** `PlatformProcessor.OnEnter`: registers the controller's entity as a
      rider and always starts tracking the contact. Adding a rider already
      in the hash set changes nothing. */
  method OnEnter(platform: Platform, kccEntity: EntityRef) returns (entered: bool)
    modifies platform`entities
    ensures platform.entities == old(platform.entities) + {kccEntity}
    ensures entered
  {
    platform.entities := platform.entities + {kccEntity};
    return true;
  }

  /** `PlatformProcessor.OnExit`: unregisters the controller's entity and
      always lets the contact close. */
  method OnExit(platform: Platform, kccEntity: EntityRef) returns (closes: bool)
    modifies platform`entities
    ensures platform.entities == old(platform.entities) - {kccEntity}
    ensures closes
  {
    platform.entities := platform.entities - {kccEntity};
    return true;
  }

  /** A controller that entered a platform is carried by the platform's
      next tick exactly as far as the platform moves, and one that left it
      is not moved at all (the visual twin aside). */
  lemma EnteredRiderIsCarried(p: PlatformData, positions: map<EntityRef, real>, deltaTime: real, kccEntity: EntityRef)
    requires p.Valid()
    requires kccEntity in positions && kccEntity != p.visual
    ensures var r := Tick(p.(entities := p.entities + {kccEntity}), positions, deltaTime);
            r.positions[kccEntity] == positions[kccEntity] + (r.platform.position - p.position)
    ensures var r := Tick(p.(entities := p.entities - {kccEntity}), positions, deltaTime);
            r.positions[kccEntity] == positions[kccEntity]
  {
    TickCarriesRiders(p.(entities := p.entities + {kccEntity}), positions, deltaTime);
    TickCarriesRiders(p.(entities := p.entities - {kccEntity}), positions, deltaTime);
  }
}
