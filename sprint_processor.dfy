/** The sprint processor: before each move it picks the controller's
    kinematic speed from the player's sprint button and the held input. */
module SprintProcessor {
  import opened Engine
  import opened Kcc
  import opened Gameplay

  /** The processor asset's tunables. */
  datatype SprintSettings = SprintSettings(
    walkSpeed: real,
    sprintSpeed: real,
    airSprintMultiplier: real,
    minInputMagnitudeForSprint: real)

  /** The values the asset ships with. */
  const DefaultSettings: SprintSettings := SprintSettings(8.0, 12.0, 0.5, 0.5)

  /** `|v| >= m`, decided without the square root: a magnitude is never
      negative, and for `m > 0` the comparison holds between the squares. */
  predicate MagnitudeAtLeast(v: Vec3, m: real) {
    m <= 0.0 || SqrMagnitude(v) >= m * m
  }

  /** The square-free test agrees with comparing the true magnitude. */
  lemma MagnitudeAtLeastIsExact(v: Vec3, m: real, magnitude: real)
    requires magnitude >= 0.0 && magnitude * magnitude == SqrMagnitude(v)
    ensures MagnitudeAtLeast(v, m) <==> magnitude >= m
  {
    if m > 0.0 {
      if magnitude >= m {
        assert magnitude * magnitude >= m * magnitude >= m * m;
      } else {
        var sq := magnitude * magnitude;
        assert sq <= m * magnitude;
        assert m * magnitude < m * m;
        assert SqrMagnitude(v) == sq;
      }
    }
  }

  /** Sprint is on when the sprint button went down and the stick is pushed
      at least the configured amount. */
  predicate CanSprint(settings: SprintSettings, sprintWasPressed: bool, inputDirection: Vec3) {
    sprintWasPressed && MagnitudeAtLeast(inputDirection, settings.minInputMagnitudeForSprint)
  }

  /** The speed `BeforeMove` writes: walking speed without sprint, grounded
      or not; sprint speed on the ground; scaled sprint speed in the air. */
  function TargetSpeed(settings: SprintSettings, canSprint: bool, isGrounded: bool): (speed: real)
    ensures !canSprint ==> speed == settings.walkSpeed
    ensures canSprint && isGrounded ==> speed == settings.sprintSpeed
    ensures canSprint && !isGrounded ==> speed == settings.sprintSpeed * settings.airSprintMultiplier
  {
    var targetSpeed := if canSprint then settings.sprintSpeed else settings.walkSpeed;
    if !isGrounded && canSprint then targetSpeed * settings.airSprintMultiplier else targetSpeed
  }

  /** With a multiplier in `[0, 1]` and a non-negative sprint speed, sprinting
      in the air is never faster than sprinting on the ground. */
  lemma AirSprintNeverFaster(settings: SprintSettings)
    requires settings.sprintSpeed >= 0.0 && 0.0 <= settings.airSprintMultiplier <= 1.0
    ensures TargetSpeed(settings, true, false) <= TargetSpeed(settings, true, true)
  {
  }

  /** With the shipped values: walking at 8, sprinting at 12 on the ground
      and at 6 in the air. */
  lemma DefaultSpeeds()
    ensures TargetSpeed(DefaultSettings, false, true) == 8.0 && TargetSpeed(DefaultSettings, false, false) == 8.0
    ensures TargetSpeed(DefaultSettings, true, true) == 12.0
    ensures TargetSpeed(DefaultSettings, true, false) == 6.0
  {
  }

  /** `SprintProcessor.BeforeMove`. Without a `Player` component or with an
      invalid player, nothing is written; otherwise exactly the kinematic
      speed is, from the player's input of this tick. */
  method BeforeMove(kcc: KCC, settings: SprintSettings, players: map<EntityRef, Player>, sprintWasPressed: bool)
    modifies kcc`kinematicSpeed
    ensures kcc.entity !in players || !players[kcc.entity].playerRef.IsValid() ==> unchanged(kcc)
    ensures kcc.entity in players && players[kcc.entity].playerRef.IsValid() ==>
              kcc.kinematicSpeed == TargetSpeed(settings, CanSprint(settings, sprintWasPressed, kcc.inputDirection), kcc.isGrounded)
  {
    if kcc.entity !in players {
      return;
    }
    var player := players[kcc.entity];
    if !player.playerRef.IsValid() {
      return;
    }

    var canSprint := sprintWasPressed && MagnitudeAtLeast(kcc.inputDirection, settings.minInputMagnitudeForSprint);

    var targetSpeed := if canSprint then settings.sprintSpeed else settings.walkSpeed;
    if !kcc.isGrounded && canSprint {
      targetSpeed := targetSpeed * settings.airSprintMultiplier;
    }

    kcc.kinematicSpeed := targetSpeed;
  }
}
