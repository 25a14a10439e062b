# Slopesters per-tick simulation, modelled in Dafny

This project models the deterministic per-tick rules of the Slopesters
character-controller example, which is built on Photon Quantum and its
kinematic character controller (KCC). It covers these parts:

- **Moving platforms** (`PlatformSystem`): each tick runs the dwell countdown, spends the
  distance budget along the waypoint list with the direction-aware bounce, syncs the
  visual twin and carries the registered riders. `PlatformProcessor` keeps the rider set
  up to date on enter and exit.
- **KCC processors**:
  - `TeleportProcessor` moves the controller to a random navigation target.
  - `JumpPadProcessor` launches the controller on a ballistic arc toward a random
    target, then takes over the controller until it lands.
  - `SprintProcessor` picks the kinematic speed from the sprint button.
- **The NPC wander system** (`NPCSystem`): a stuck timer, a jump when stuck, and
  re-targeting to a random baked waypoint.
- **Frame helpers** (`Gameplay`): the first-match search for a player's entity, and the
  random choice of a spawn point or waypoint from the baked `GameplayData`.
- **The view-side input collector** (`Input`): a once-per-render-frame accumulation
  gate with a reset flag, OR-accumulation of the jump and sprint buttons, and the
  20-slot history ring of polled inputs indexed by `frame % 20`.

Shared vocabulary lives in `Engine`: entity and player references, vectors,
rotations, transforms and the RNG draw. `Kcc` holds the controller's data record and
the navigation-target lookup that the teleport and the jump pad share.

State that the source updates in place is a Dafny `class`. This covers the platform
component, the KCC data, the NPC component and the input collector. The platform update
and the input collector are proved against specification functions over values:

- `PlatformSystem.Update` matches `Tick`, which is built from `Step`, `Traverse` and `Carry`.
- `Input.PlayerInput.PollInput` and `GetInputForFrame` match `Record` and `InputForFrame`.
- `Input.PlayerInput.AccumulateInput` matches `Accumulate`.

The processors and the NPC update are short sequences of guarded field writes. Their
contracts state the new value of every controller field directly.

The lemmas state the promised properties about those functions.

Modelling choices:

- Fixed-point scalars (`FP`) are `real`.
- Platform geometry is one-dimensional. A position is a `real`, so `FPVector3.Normalize`
  becomes the sign and the absolute value of the difference.
- A waypoint entity is held as its position.
- The square root in the jump pad is a parameter of the model.
- `RNG->Next(min, max)` is a nondeterministic choice in `[min, max)`.

### Platform overshoot

In the branch that reaches the waypoint, the platform moves by
`directionToWaypoint * remainingLength`, which is the whole remaining budget. The
budget, however, is reduced only by the distance to the waypoint
(`PlatformSystem.cs:66-67`). So a platform that reaches a waypoint overshoots it
instead of stopping on it, and a single tick can carry it further than
`Speed * DeltaTime`. The model follows the code:

- `PlatformSystem.StepReachOvershoots` states the exact overshoot.
- `PlatformSystem.TraverseCanExceedBudget` exhibits a tick that carries a platform
  5 units on a budget of 3.

## Model

| member | source | states |
|---|---|---|
| PlatformSystem.NextWaypoint | Assets/Photon/QuantumAddons/KCC/Example/Scripts/Simulation/Platforms/PlatformSystem.cs:109-135 | The bounce rule. It reports a switch exactly when the forward/backward sense flips (0 is forward, anything else backward). With at least two waypoints an in-range index stays in range. Forward past the end goes to `count-2` heading backward; backward below 0 goes to 1 heading forward; otherwise the index steps by one and the direction is kept. |
| PlatformSystem.TwoWaypointsAlternate | Assets/Photon/QuantumAddons/KCC/Example/Scripts/Simulation/Platforms/PlatformSystem.cs:109-135 | With two waypoints every advance goes to the other waypoint. |
| PlatformSystem.SetNextWaypoint | Assets/Photon/QuantumAddons/KCC/Example/Scripts/Simulation/Platforms/PlatformSystem.cs:109-135 | The in-place update writes the index and direction that `NextWaypoint` prescribes and returns whether the direction switched. |
| PlatformSystem.Step | Assets/Photon/QuantumAddons/KCC/Example/Scripts/Simulation/Platforms/PlatformSystem.cs:39-76 | Every loop iteration, whichever branch it takes, uses up one of the remaining waypoint visits. |
| PlatformSystem.Traverse | Assets/Photon/QuantumAddons/KCC/Example/Scripts/Simulation/Platforms/PlatformSystem.cs:37-77 | The whole loop leaves the waypoint index inside the list. |
| PlatformSystem.StepAtWaypoint | Assets/Photon/QuantumAddons/KCC/Example/Scripts/Simulation/Platforms/PlatformSystem.cs:46-57 | On the waypoint (distance 0), an iteration advances the waypoint without moving and without spending budget. |
| PlatformSystem.StepShortOfWaypoint | Assets/Photon/QuantumAddons/KCC/Example/Scripts/Simulation/Platforms/PlatformSystem.cs:59-63 | When the waypoint is beyond the budget, the platform moves exactly the budget toward it, and the distance left shrinks by that much. The waypoint is kept and the loop ends. |
| PlatformSystem.StepReachOvershoots | Assets/Photon/QuantumAddons/KCC/Example/Scripts/Simulation/Platforms/PlatformSystem.cs:64-67 | When the waypoint is within the budget, the budget drops by the distance to it. The platform ends past the waypoint, in the direction of travel, by exactly the budget left: it overshoots rather than snaps. |
| PlatformSystem.StepArmsDelayOnReversal | Assets/Photon/QuantumAddons/KCC/Example/Scripts/Simulation/Platforms/PlatformSystem.cs:48-54 | An iteration breaks out exactly when it reversed the platform while `Delay > 0`, and it then sets the countdown to `Delay`. Otherwise the countdown is untouched. This holds for both the zero-distance and the reach branch. |
| PlatformSystem.TraverseBounds | Assets/Photon/QuantumAddons/KCC/Example/Scripts/Simulation/Platforms/PlatformSystem.cs:35-39 | The loop runs at most `waypoints.Count` iterations and never gains budget. The countdown is either unchanged or armed with `Delay`. |
| PlatformSystem.TraverseCanExceedBudget | Assets/Photon/QuantumAddons/KCC/Example/Scripts/Simulation/Platforms/PlatformSystem.cs:64-67 | A concrete run in which one tick moves a platform 5 units on a budget of 3. |
| PlatformSystem.TraverseWaypoints | Assets/Photon/QuantumAddons/KCC/Example/Scripts/Simulation/Platforms/PlatformSystem.cs:33-77 | The in-place loop ends in the state that `Traverse` gives. It writes only position, waypoint index, direction and countdown, and keeps the index valid. |
| PlatformSystem.CarryRiders | Assets/Photon/QuantumAddons/KCC/Example/Scripts/Simulation/Platforms/PlatformSystem.cs:88-95 | Walking the rider hash set in any order adds the delta to every rider that has a transform, skips riders without one, and leaves every other transform alone. |
| PlatformSystem.Update | Assets/Photon/QuantumAddons/KCC/Example/Scripts/Simulation/Platforms/PlatformSystem.cs:20-97 | The in-place update of the platform and the transforms equals `Tick` of the old state, and it keeps the waypoint index valid. |
| PlatformSystem.TickDwell | Assets/Photon/QuantumAddons/KCC/Example/Scripts/Simulation/Platforms/PlatformSystem.cs:25-27 | The countdown becomes `max(0, CurrentDelay - dt)`, or `Delay` if a reversal re-armed it. While the countdown is still positive nothing else changes: no position, waypoint, visual or rider. |
| PlatformSystem.TickWithoutRoute | Assets/Photon/QuantumAddons/KCC/Example/Scripts/Simulation/Platforms/PlatformSystem.cs:29-31 | With fewer than two waypoints only the countdown changes. |
| PlatformSystem.TickKeepsConfiguration | Assets/Photon/QuantumAddons/KCC/Example/Scripts/Simulation/Platforms/PlatformSystem.cs:20-97 | A tick never changes the route, speed, delay, visual or rider set, and keeps the waypoint index valid. |
| PlatformSystem.TickSyncsVisual | Assets/Photon/QuantumAddons/KCC/Example/Scripts/Simulation/Platforms/PlatformSystem.cs:80-81 | After the platform has been allowed to move, its visual twin stands at the platform's new position. |
| PlatformSystem.TickCarriesRiders | Assets/Photon/QuantumAddons/KCC/Example/Scripts/Simulation/Platforms/PlatformSystem.cs:83-96 | Every entity with a transform, other than the visual, moves by exactly `newPosition - basePosition` if it is a rider and stays put otherwise. When the delta is zero nothing moves. No transform appears or disappears apart from the visual's. |
| PlatformSystem.OnAdded | Assets/Photon/QuantumAddons/KCC/Example/Scripts/Simulation/Platforms/PlatformSystem.cs:99-102 | A new platform component starts with an empty rider set. |
| PlatformSystem.OnRemoved | Assets/Photon/QuantumAddons/KCC/Example/Scripts/Simulation/Platforms/PlatformSystem.cs:104-107 | Removing the component releases its rider set. |
| PlatformProcessor.OnEnter | Assets/QuantumUser/Simulation/KCC/PlatformProcessor.cs:10-18 | The rider set becomes the old set plus the controller's entity, so adding it again is idempotent and other members are untouched. It always returns true. |
| PlatformProcessor.OnExit | Assets/QuantumUser/Simulation/KCC/PlatformProcessor.cs:20-28 | The rider set becomes the old set minus the controller's entity, and other members are untouched. It always returns true. |
| PlatformProcessor.EnteredRiderIsCarried | Assets/QuantumUser/Simulation/KCC/PlatformProcessor.cs:14-15 | After entering, a controller moves with the platform's next tick by exactly the platform's displacement. After leaving, it is not moved at all. |
| SprintProcessor.DefaultSpeeds | Assets/QuantumUser/Simulation/KCC/SprintProcessor.cs:16-25 | With the shipped tunables a controller walks at 8 (grounded or not), sprints at 12 on the ground and at 6 in the air. |
| Kcc.ResolveNavigationTarget | Assets/Photon/QuantumAddons/KCC/Example/Scripts/Simulation/KCC/TeleportProcessor.cs:13-22 | The decline guards: no entity, no `NavigationSource` or no targets gives no target. Otherwise the drawn index is in `[0, Count)`, and a target is returned exactly when the drawn entity has a transform; that transform is the one returned. |
| TeleportProcessor.OnEnter | Assets/Photon/QuantumAddons/KCC/Example/Scripts/Simulation/KCC/TeleportProcessor.cs:11-32 | The drawn index lies in `[0, Count)` whenever there are targets. The enter succeeds exactly when the drawn target has a transform, so it declines exactly on the four guards. A declined enter leaves the controller unchanged and returns false. A successful one zeroes both velocities, teleports to the drawn target's position, takes the look rotation from that target, changes nothing else and returns true. |
| JumpPadProcessor.GetPriority | Assets/QuantumUser/Simulation/KCC/JumpPadProcessor.cs:12 | The priority is 1000, above the default, so the jump pad runs first. |
| JumpPadProcessor.LaunchReachesOffsetAtApex | Assets/QuantumUser/Simulation/KCC/JumpPadProcessor.cs:42-44 | The launch velocity covers the horizontal offset in exactly `apexTime`, and its vertical part is cancelled by gravity at `apexTime`. |
| JumpPadProcessor.ApexHeightIsDestinationHeight | Assets/QuantumUser/Simulation/KCC/JumpPadProcessor.cs:38-44 | With the exact square-root term as flight time, the arc under gravity rises exactly to the destination's height while covering its horizontal offset. |
| JumpPadProcessor.OnEnter | Assets/QuantumUser/Simulation/KCC/JumpPadProcessor.cs:14-49 | The drawn index lies in `[0, Count)` whenever there are targets. The enter succeeds exactly when the drawn target has a transform, so it declines exactly on the four guards, as the teleport does. A declined enter leaves the controller unchanged. A successful one zeroes the kinematic velocity, teleports onto the current target position and clears the grounded flag. It sets the dynamic velocity to the launch formula toward the drawn target, for a positive apex time, changes nothing else and returns true. |
| JumpPadProcessor.OnExit | Assets/QuantumUser/Simulation/KCC/JumpPadProcessor.cs:51-55 | The contact closes exactly when the controller is grounded and was grounded. |
| JumpPadProcessor.BeforeMove | Assets/QuantumUser/Simulation/KCC/JumpPadProcessor.cs:57-69 | The dynamic velocity grows by exactly `Gravity * DeltaTime`. The external delta, force and impulse are reset, other processors are suppressed, and nothing else changes. |
| SprintProcessor.MagnitudeAtLeastIsExact | Assets/QuantumUser/Simulation/KCC/SprintProcessor.cs:41-42 | The square-free test agrees with `InputDirection.Magnitude >= MinInputMagnitudeForSprint` in both directions. |
| SprintProcessor.TargetSpeed | Assets/QuantumUser/Simulation/KCC/SprintProcessor.cs:45-51 | Without sprint the speed is `WalkSpeed`, grounded or not. With sprint it is `SprintSpeed` on the ground and `SprintSpeed * AirSprintMultiplier` in the air. |
| SprintProcessor.AirSprintNeverFaster | Assets/QuantumUser/Simulation/KCC/SprintProcessor.cs:16-25 | With a multiplier in `[0, 1]`, air sprint is never faster than ground sprint. |
| SprintProcessor.BeforeMove | Assets/QuantumUser/Simulation/KCC/SprintProcessor.cs:30-55 | With no `Player` or an invalid `PlayerRef` nothing is written. Otherwise exactly the kinematic speed is written, as the target speed for this tick's sprint press and input magnitude. |
| NPCSystem.Update | Assets/Photon/QuantumAddons/KCC/Example/Scripts/Simulation/NPC/NPCSystem.cs:20-62 | The stuck timer grows first and a grounded NPC past 1 s jumps. With no target or over 5 s it re-targets to a baked waypoint and resets the timer. Progress over 1 m resets the check position and timer. It arrives within 1 m (clearing the target, controller untouched) or else steers toward the goal at speed 4. No other controller field changes; the target stays a baked waypoint or unset, and the timer stays at most 5. |
| Gameplay.GetPlayerEntity | Assets/Photon/QuantumAddons/KCC/Example/Scripts/Simulation/Frame.User.cs:5-14 | The result is the entity of the first `Player` whose `PlayerRef` matches, or `EntityRef.None` when none matches. |
| Gameplay.GetPlayerEntityNoneIffAbsent | Assets/Photon/QuantumAddons/KCC/Example/Scripts/Simulation/Frame.User.cs:13 | When no player entity is `None` itself, the search returns `None` exactly when no player matches. |
| Gameplay.GetRandomSpawnPoint | Assets/Photon/QuantumAddons/KCC/Example/Scripts/Simulation/Frame.User.cs:16-20 | The result is one of the baked spawn points. |
| Gameplay.GetRandomWaypoint | Assets/Photon/QuantumAddons/KCC/Example/Scripts/Simulation/Frame.User.cs:22-26 | The result is one of the baked waypoints. |
| Input.AccumulateOncePerFrame | Assets/QuantumUser/View/Input/PlayerInput.cs:117-120 | A second accumulation in the same render frame is a no-op, whatever the devices then report. |
| Input.AccumulateAfterPollStartsFresh | Assets/QuantumUser/View/Input/PlayerInput.cs:122-126 | After a poll asked for a reset, the next accumulation starts from the default record and clears the flag. The buttons are then exactly what this frame's devices press. |
| Input.UnlockedStandaloneAccumulatesNothing | Assets/QuantumUser/View/Input/PlayerInput.cs:142-143 | With the cursor unlocked, a standalone accumulation adds nothing. |
| Input.ButtonsStayPressed | Assets/QuantumUser/View/Input/PlayerInput.cs:153-156 | Within an accumulation window (no poll in between), a recorded jump or sprint stays recorded across any number of render frames. |
| Input.NoInputBeforeFirstFrame | Assets/QuantumUser/View/Input/PlayerInput.cs:235-236 | Frames at or below 0 read as the default input. |
| Input.PollThenRead | Assets/QuantumUser/View/Input/PlayerInput.cs:229-240 | Reading a frame right after it was polled returns the polled input. |
| Input.PollKeepsOtherSlots | Assets/QuantumUser/View/Input/PlayerInput.cs:229 | A poll writes only slot `f % 20`. The other 19 slots, and the readings of frames that map to them, are unchanged. |
| Input.OverwrittenFrameReadsDefault | Assets/QuantumUser/View/Input/PlayerInput.cs:238-242 | Once a later frame reuses a slot, the earlier frame reads as default. |
| Input.PolledFrameSurvives | Assets/QuantumUser/View/Input/PlayerInput.cs:229-240 | A polled frame stays readable through any run of later polls that avoid its slot. |
| Input.Record | Assets/QuantumUser/View/Input/PlayerInput.cs:18 | The ring keeps its 20 slots. |
| Input.RecordAll | Assets/QuantumUser/View/Input/PlayerInput.cs:18 | The ring keeps its 20 slots through any run of polls. |
| Input.PlayerInput.constructor | Assets/QuantumUser/View/Input/PlayerInput.cs:13-31 | The collector starts with 20 empty slots, a default record, no pending reset and the cursor locked. |
| Input.PlayerInput.ToggleCursorLock | Assets/QuantumUser/View/Input/PlayerInput.cs:99-113 | The lock flag is negated. |
| Input.PlayerInput.AccumulateInput | Assets/QuantumUser/View/Input/PlayerInput.cs:115-137 | The accumulation fields end as `Accumulate` prescribes: gated by frame, reset if asked, then the mobile or standalone branch. |
| Input.PlayerInput.ProcessStandaloneInput | Assets/QuantumUser/View/Input/PlayerInput.cs:139-157 | With the cursor unlocked nothing changes. Otherwise the move direction is replaced and jump and sprint are OR-ed in. |
| Input.PlayerInput.ProcessMobileInput | Assets/QuantumUser/View/Input/PlayerInput.cs:159-187 | The touch jump is OR-ed in and the move direction is replaced. Sprint is untouched. |
| Input.PlayerInput.PollInput | Assets/QuantumUser/View/Input/PlayerInput.cs:216-231 | It accumulates, asks for a reset and stamps the consumed look delta. It stores the result in slot `frame % 20` and nowhere else, and returns it as the frame's input. |
| Input.PlayerInput.GetInputForFrame | Assets/QuantumUser/View/Input/PlayerInput.cs:233-243 | It returns `InputForFrame` of the ring: the stored input when the slot holds that frame, and the default otherwise and for frames at or below 0. |

In detail, `NPCSystem.Update` states the following about `NPCSystem.cs:20-62`:

- `CheckTime` first grows by `DeltaTime`.
- A jump of `Up * 5` is requested exactly when that time exceeds 1 and the controller is grounded.
- With no target, or a time over 5, the time resets and the new goal is one of the baked waypoints; otherwise the goal is the old target.
- Horizontal squared progress over 1 from `CheckPosition` moves `CheckPosition` to the current position and resets the time.
- Within squared distance 1 of the goal, the target is cleared and look, input and speed stay untouched. Otherwise look and input face the horizontal offset to the goal and the speed is 4.
- No other controller field changes.
- The target always stays unset or a baked waypoint, and the time never exceeds 5.

## Left out

- Fixed-point arithmetic: scalars are exact reals, so the rounding of `FP` operations is not modelled.
- Three-dimensional platform geometry: platforms move along a line, which keeps the control flow of `Normalize` (direction and distance) but not the vector arithmetic.
- `FPMath.Sqrt` in the jump pad is a parameter; the only thing assumed of it is that it is not negative.
- `FPVector3.Magnitude` in the sprint check is replaced by the equivalent squared comparison, proved equivalent for any exact magnitude.
- Quaternion maths: `SetLookRotation` records the rotation or the facing direction it was given, not the Euler angles the KCC derives.
- The RNG sequence: a draw is any index in range, not the deterministic value Quantum produces.
- The KCC's internals: `Teleport`, `SetKinematicVelocity`, `SetDynamicVelocity`, `Jump`, `SetInputDirection` and `SetKinematicSpeed` are direct writes to the data fields.
  - `Teleport`'s other effects (CCD reset, position sync) are not modelled.
  - `Jump` is a plain write of the impulse.
- Processor dispatch: priority ordering, enter/exit delivery and `SuppressProcessors` belong to the KCC addon, which is not part of this model. The priority is a returned value and suppression is a flag.
- PlatformSystem.Update: requires the waypoint index to lie in the waypoint list whenever there are at least two waypoints. An out-of-range `CurrentWaypoint` would make `waypoints[platform->CurrentWaypoint]` (`PlatformSystem.cs:41`) fail, which the model does not represent. Every operation here keeps that invariant.
- PlatformProcessor.OnEnter and PlatformProcessor.OnExit: receive the `Platform` component directly. The failure of `GetPointer<Platform>` on an entity without one (`PlatformProcessor.cs:12`, `PlatformProcessor.cs:22`) is not modelled.
- PlatformSystem.Update: the visual's transform is assumed to exist; when it is absent, the map write adds it.
- PlatformSystem.TickSyncsVisual: assumes the visual twin is not itself a registered rider, since a rider visual would be moved a second time.
- A platform registered as its own rider is not modelled: positions of riders live in a separate map from the platform's own.
- PlatformSystem.OnRemoved: the hash-set handle and the frame heap are not modelled, so use of a freed set cannot arise.
- SprintProcessor.BeforeMove: the sprint button's `WasPressed` edge and the player's input are a parameter, not read from the frame's input.
- Engine.PlayerRef.IsValid is modelled as a positive index.
- Input.PlayerInput.PollInput: requires a non-negative frame: `%` in C# keeps the sign of the dividend, so a negative frame would index outside the ring, and Quantum never polls one.
- The device side of the input collector: Unity Input System callbacks, touch tracking, double-tap timing, the screen-size scaling of touch moves and the normalisation of the stick arrive already computed in a `Devices` value.
- The float look-rotation accumulator (`Vector2Accumulator`, frame-aligned consumption) and `GetPendingLookRotationDelta`: the look delta a poll stamps is a parameter.
- Input.PlayerInput.ToggleCursorLock: the Unity cursor lock state and visibility it also sets are not modelled.
- JumpPadProcessor.OnEnter: requires a non-zero vertical gravity and a positive tick, because the apex time divides by the gravity and the launch velocity by the apex time; what fixed-point division by zero yields is not modelled.
- Gameplay.GetPlayerEntityNoneIffAbsent: assumes no player entity is `EntityRef.None` itself, since a matching player on the null entity would be indistinguishable from no match.
- Gameplay.GetRandomSpawnPoint, Gameplay.GetRandomWaypoint and NPCSystem.Update: require the baked array to be non-empty when a draw happens, because the source then indexes an empty array.
- Camera, menu, UI, scene baking, gameplay spawning glue and the penetration visualiser are not part of this model.
