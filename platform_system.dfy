/** The platform system: each tick it moves every platform along its
    waypoints and carries the entities registered on it by the same
    displacement.

    Geometry is one-dimensional: a position is a `real`, so the direction to
    a waypoint is the sign of the difference and the distance its absolute
    value, exactly what `FPVector3.Normalize(v, out distance)` yields along
    a line. A waypoint is held as the position of its entity's transform. */
module PlatformSystem {
  import opened Engine

  /** The `Platform` component together with its entity's transform. */
  class Platform {
    /** Position of the platform entity's `Transform3D`. */
    var position: real
    /** Positions of the waypoint entities, in list order. */
    var waypoints: seq<real>
    var currentWaypoint: int
    /** 0 is forward (toward higher indices); any other value is backward. */
    var currentDirection: int
    var speed: real
    /** Dwell time at each direction reversal. */
    var delay: real
    var currentDelay: real
    /** The render-only twin whose transform follows the platform. */
    var visual: EntityRef
    /** The hash set of riders that `PlatformProcessor` maintains. */
    var entities: set<EntityRef>

    /** The waypoint index is usable whenever the platform can move. */
    ghost predicate Valid()
      reads this
    {
      Data().Valid()
    }

    function Data(): PlatformData
      reads this
    {
      PlatformData(position, waypoints, currentWaypoint, currentDirection, speed, delay, currentDelay, visual, entities)
    }
  }

  /** The transforms of every other entity (riders, the visual twin), as
      positions along the platform's line. */
  class TransformStore {
    var positions: map<EntityRef, real>
  }

  /** A platform's state as a value. */
  datatype PlatformData = PlatformData(
    position: real,
    waypoints: seq<real>,
    currentWaypoint: int,
    currentDirection: int,
    speed: real,
    delay: real,
    currentDelay: real,
    visual: EntityRef,
    entities: set<EntityRef>)
  {
    ghost predicate Valid() {
      |waypoints| >= 2 ==> 0 <= currentWaypoint < |waypoints|
    }
  }

  predicate IsForward(direction: int) { direction == 0 }

  /** The waypoint cursor after one advance, and whether it turned round. */
  datatype Advance = Advance(waypoint: int, direction: int, switched: bool)

  /** The direction-aware bounce of `SetNextWaypoint`: forward steps up
      and, past the last waypoint, turns back onto the one before it;
      backward steps down and, below the first, turns onto the second. */
  function NextWaypoint(waypoint: int, direction: int, count: int): (r: Advance)
    ensures r.switched <==> IsForward(r.direction) != IsForward(direction)
    ensures count >= 2 && 0 <= waypoint < count ==> 0 <= r.waypoint < count
    ensures IsForward(direction) && waypoint + 1 >= count ==> r == Advance(count - 2, 1, true)
    ensures IsForward(direction) && waypoint + 1 < count ==> r == Advance(waypoint + 1, direction, false)
    ensures !IsForward(direction) && waypoint - 1 < 0 ==> r == Advance(1, 0, true)
    ensures !IsForward(direction) && waypoint - 1 >= 0 ==> r == Advance(waypoint - 1, direction, false)
  {
    if IsForward(direction) then
      if waypoint + 1 >= count then Advance(count - 2, 1, true) else Advance(waypoint + 1, direction, false)
    else
      if waypoint - 1 < 0 then Advance(1, 0, true) else Advance(waypoint - 1, direction, false)
  }

  /** With two waypoints the cursor simply alternates between them. */
  lemma TwoWaypointsAlternate(waypoint: int, direction: int)
    requires 0 <= waypoint < 2
    ensures NextWaypoint(waypoint, direction, 2).waypoint == 1 - waypoint
  {
  }

  /** `PlatformSystem.SetNextWaypoint`, updating the component in place. */
  method SetNextWaypoint(platform: Platform) returns (hasSwitchedDirection: bool)
    modifies platform`currentWaypoint, platform`currentDirection
    ensures var a := NextWaypoint(old(platform.currentWaypoint), old(platform.currentDirection), |platform.waypoints|);
            && platform.currentWaypoint == a.waypoint
            && platform.currentDirection == a.direction
            && hasSwitchedDirection == a.switched
  {
    if platform.currentDirection == 0 {
      platform.currentWaypoint := platform.currentWaypoint + 1;
      if platform.currentWaypoint >= |platform.waypoints| {
        platform.currentWaypoint := |platform.waypoints| - 2;
        platform.currentDirection := 1;
        return true;
      }
    } else {
      platform.currentWaypoint := platform.currentWaypoint - 1;
      if platform.currentWaypoint < 0 {
        platform.currentWaypoint := 1;
        platform.currentDirection := 0;
        return true;
      }
    }
    return false;
  }

  /** The state the traversal loop of `Update` runs over. */
  datatype Cursor = Cursor(
    position: real,
    waypoint: int,
    direction: int,
    currentDelay: real,
    remainingLength: real,
    remainingWaypoints: int)

  /** The loop guard: budget left and waypoints left to visit. */
  predicate Continues(c: Cursor) {
    c.remainingLength > 0.0 && c.remainingWaypoints > 0
  }

  /** One iteration of the traversal loop and whether it ended in `break`. */
  datatype StepResult = StepResult(cursor: Cursor, stop: bool)

  /** One iteration of the traversal loop, as the code has it. In the
      branch that reaches the waypoint the platform moves by the whole
      remaining budget, while the budget is reduced only by the distance to
      the waypoint. */
  function Step(c: Cursor, waypoints: seq<real>, delay: real): (r: StepResult)
    requires 0 <= c.waypoint < |waypoints|
    ensures r.cursor.remainingWaypoints == c.remainingWaypoints - 1
  {
    var remainingWaypoints := c.remainingWaypoints - 1;
    var toWaypoint := waypoints[c.waypoint] - c.position;
    var directionToWaypoint := Sign(toWaypoint);
    var distanceToWaypoint := Abs(toWaypoint);
    if distanceToWaypoint <= 0.0 then
      var a := NextWaypoint(c.waypoint, c.direction, |waypoints|);
      var stop := delay > 0.0 && a.switched;
      StepResult(c.(waypoint := a.waypoint, direction := a.direction,
                    currentDelay := if stop then delay else c.currentDelay,
                    remainingWaypoints := remainingWaypoints), stop)
    else if distanceToWaypoint > c.remainingLength then
      StepResult(c.(position := c.position + directionToWaypoint * c.remainingLength,
                    remainingLength := 0.0, remainingWaypoints := remainingWaypoints), false)
    else
      var a := NextWaypoint(c.waypoint, c.direction, |waypoints|);
      var stop := delay > 0.0 && a.switched;
      StepResult(c.(position := c.position + directionToWaypoint * c.remainingLength,
                    remainingLength := c.remainingLength - distanceToWaypoint,
                    waypoint := a.waypoint, direction := a.direction,
                    currentDelay := if stop then delay else c.currentDelay,
                    remainingWaypoints := remainingWaypoints), stop)
  }

  /** The whole traversal loop: iterate `Step` while the guard holds and no
      iteration has broken out. */
  function Traverse(c: Cursor, waypoints: seq<real>, delay: real): (r: Cursor)
    requires |waypoints| >= 2 && 0 <= c.waypoint < |waypoints|
    ensures 0 <= r.waypoint < |waypoints|
    decreases c.remainingWaypoints
  {
    if !Continues(c) then c
    else
      var s := Step(c, waypoints, delay);
      assert 0 <= s.cursor.waypoint < |waypoints| by {
        assert s.cursor.waypoint == c.waypoint || s.cursor.waypoint == NextWaypoint(c.waypoint, c.direction, |waypoints|).waypoint;
      }
      if s.stop then s.cursor else Traverse(s.cursor, waypoints, delay)
  }

  /** Moving the rider set: every rider with a transform moves by `delta`,
      every other entity keeps its position. */
  function Carry(positions: map<EntityRef, real>, riders: set<EntityRef>, delta: real): (r: map<EntityRef, real>)
  {
    map e | e in positions :: if e in riders then positions[e] + delta else positions[e]
  }

  datatype TickResult = TickResult(platform: PlatformData, positions: map<EntityRef, real>)

  /** The distance a platform may travel in one tick. */
  function Budget(speed: real, deltaTime: real): real {
    speed * deltaTime
  }

  function Countdown(currentDelay: real, deltaTime: real): real {
    Max(0.0, currentDelay - deltaTime)
  }

  /** One `Update` of one platform: dwell countdown, traversal, visual sync
      and rider broadcast. */
  function Tick(p: PlatformData, positions: map<EntityRef, real>, deltaTime: real): (r: TickResult)
    requires p.Valid()
  {
    var currentDelay := Countdown(p.currentDelay, deltaTime);
    if currentDelay > 0.0 || |p.waypoints| <= 1 then
      TickResult(p.(currentDelay := currentDelay), positions)
    else
      var start := Cursor(p.position, p.currentWaypoint, p.currentDirection, currentDelay,
                          Budget(p.speed, deltaTime), |p.waypoints|);
      var c := Traverse(start, p.waypoints, p.delay);
      var moved := p.(position := c.position, currentWaypoint := c.waypoint,
                      currentDirection := c.direction, currentDelay := c.currentDelay);
      var synced := positions[p.visual := c.position];
      var positionDelta := c.position - p.position;
      TickResult(moved, if positionDelta != 0.0 then Carry(synced, p.entities, positionDelta) else synced)
  }

  /** The traversal loop of `PlatformSystem.Update`: spends the distance
      budget over at most one pass of the waypoint list. */
  method TraverseWaypoints(platform: Platform, remainingLength: real)
    requires |platform.waypoints| >= 2 && platform.Valid()
    modifies platform`position, platform`currentWaypoint, platform`currentDirection, platform`currentDelay
    ensures platform.Valid()
    ensures var r := Traverse(Cursor(old(platform.position), old(platform.currentWaypoint), old(platform.currentDirection),
                                     old(platform.currentDelay), remainingLength, |platform.waypoints|),
                              platform.waypoints, platform.delay);
            && platform.position == r.position && platform.currentWaypoint == r.waypoint
            && platform.currentDirection == r.direction && platform.currentDelay == r.currentDelay
  {
    var waypoints := platform.waypoints;
    var remainingLength := remainingLength;
    var remainingWaypoints := |waypoints|;

    ghost var final := Traverse(Cursor(platform.position, platform.currentWaypoint, platform.currentDirection,
                                       platform.currentDelay, remainingLength, remainingWaypoints),
                                waypoints, platform.delay);

    while remainingLength > 0.0 && remainingWaypoints > 0
      invariant 0 <= platform.currentWaypoint < |waypoints|
      invariant Traverse(Cursor(platform.position, platform.currentWaypoint, platform.currentDirection,
                                platform.currentDelay, remainingLength, remainingWaypoints),
                         waypoints, platform.delay) == final
      decreases remainingWaypoints
    {
      ghost var step := Step(Cursor(platform.position, platform.currentWaypoint, platform.currentDirection,
                                    platform.currentDelay, remainingLength, remainingWaypoints),
                             waypoints, platform.delay);

      remainingWaypoints := remainingWaypoints - 1;

      var toWaypoint := waypoints[platform.currentWaypoint] - platform.position;
      var directionToWaypoint := Sign(toWaypoint);
      var distanceToWaypoint := Abs(toWaypoint);

      if distanceToWaypoint <= 0.0 {
        var hasSwitchedDirection := SetNextWaypoint(platform);
        if platform.delay > 0.0 && hasSwitchedDirection {
          platform.currentDelay := platform.delay;
          assert step.stop;
          break;
        }
        assert !step.stop;
        continue;
      }

      if distanceToWaypoint > remainingLength {
        platform.position := platform.position + directionToWaypoint * remainingLength;
        remainingLength := 0.0;
      } else {
        platform.position := platform.position + directionToWaypoint * remainingLength;
        remainingLength := remainingLength - distanceToWaypoint;

        var hasSwitchedDirection := SetNextWaypoint(platform);
        if platform.delay > 0.0 && hasSwitchedDirection {
          platform.currentDelay := platform.delay;
          assert step.stop;
          break;
        }
      }
      assert !step.stop;
    }
  }

  /** The broadcast of `PlatformSystem.Update`: adds the platform's
      displacement to the transform of every rider that has one. The order
      in which the hash set is walked does not matter. */
  method CarryRiders(store: TransformStore, riders: set<EntityRef>, positionDelta: real)
    modifies store
    ensures store.positions == Carry(old(store.positions), riders, positionDelta)
  {
    var pending := riders;
    while pending != {}
      invariant pending <= riders
      invariant store.positions == Carry(old(store.positions), riders - pending, positionDelta)
      decreases pending
    {
      var platformEntity :| platformEntity in pending;
      if platformEntity in store.positions {
        store.positions := store.positions[platformEntity := store.positions[platformEntity] + positionDelta];
      }
      pending := pending - {platformEntity};
    }
  }

  /** `PlatformSystem.Update` for one platform. */
  method Update(platform: Platform, store: TransformStore, deltaTime: real)
    requires platform.Valid()
    modifies platform, store
    ensures platform.Valid()
    ensures var r := Tick(old(platform.Data()), old(store.positions), deltaTime);
            && platform.Data() == r.platform
            && store.positions == r.positions
  {
    platform.currentDelay := Max(0.0, platform.currentDelay - deltaTime);
    if platform.currentDelay > 0.0 {
      return;
    }

    if |platform.waypoints| <= 1 {
      return;
    }

    var basePosition := platform.position;
    TraverseWaypoints(platform, Budget(platform.speed, deltaTime));

    store.positions := store.positions[platform.visual := platform.position];

    var positionDelta := platform.position - basePosition;
    if positionDelta != 0.0 {
      CarryRiders(store, platform.entities, positionDelta);
    }
  }

  /** An iteration that finds the platform on its waypoint advances the
      cursor without moving and without spending budget. */
  lemma StepAtWaypoint(c: Cursor, waypoints: seq<real>, delay: real)
    requires 0 <= c.waypoint < |waypoints| && waypoints[c.waypoint] == c.position
    ensures var r := Step(c, waypoints, delay).cursor;
            && r.position == c.position && r.remainingLength == c.remainingLength
            && r.waypoint == NextWaypoint(c.waypoint, c.direction, |waypoints|).waypoint
  {
  }

  /** An iteration whose waypoint lies beyond the budget moves the platform
      the whole budget toward it, stops short of it and ends the loop. */
  lemma StepShortOfWaypoint(c: Cursor, waypoints: seq<real>, delay: real)
    requires 0 <= c.waypoint < |waypoints| && c.remainingLength > 0.0
    requires Abs(waypoints[c.waypoint] - c.position) > c.remainingLength
    ensures var r := Step(c, waypoints, delay);
            && Abs(r.cursor.position - c.position) == c.remainingLength
            && Abs(waypoints[c.waypoint] - r.cursor.position) == Abs(waypoints[c.waypoint] - c.position) - c.remainingLength
            && r.cursor.waypoint == c.waypoint && r.cursor.direction == c.direction
            && !r.stop && !Continues(r.cursor)
  {
  }

  /** An iteration that reaches its waypoint moves the platform by the
      whole remaining budget, so it ends up past the waypoint by the budget
      that is left, rather than on it. */
  lemma StepReachOvershoots(c: Cursor, waypoints: seq<real>, delay: real)
    requires 0 <= c.waypoint < |waypoints|
    requires 0.0 < Abs(waypoints[c.waypoint] - c.position) <= c.remainingLength
    ensures var r := Step(c, waypoints, delay).cursor;
            && r.remainingLength == c.remainingLength - Abs(waypoints[c.waypoint] - c.position)
            && Abs(r.position - waypoints[c.waypoint]) == r.remainingLength
            && Sign(r.position - waypoints[c.waypoint]) * Sign(waypoints[c.waypoint] - c.position) >= 0.0
  {
  }

  /** An iteration breaks out of the loop exactly when it turned the
      platform round while a dwell delay is configured, and then arms the
      dwell countdown; otherwise the countdown is left alone. */
  lemma StepArmsDelayOnReversal(c: Cursor, waypoints: seq<real>, delay: real)
    requires 0 <= c.waypoint < |waypoints|
    ensures var r := Step(c, waypoints, delay);
            && (r.stop <==> delay > 0.0 && IsForward(r.cursor.direction) != IsForward(c.direction))
            && (r.stop ==> r.cursor.currentDelay == delay)
            && (!r.stop ==> r.cursor.currentDelay == c.currentDelay)
  {
  }

  /** The traversal runs at most as many iterations as it was allowed
      (`remainingWaypoints` counts each one down, whether it moved or not),
      never gains budget, and leaves the dwell countdown as it was unless a
      reversal armed it with the configured delay. */
  lemma {:induction false} TraverseBounds(c: Cursor, waypoints: seq<real>, delay: real)
    requires |waypoints| >= 2 && 0 <= c.waypoint < |waypoints|
    requires c.remainingWaypoints >= 0
    ensures var r := Traverse(c, waypoints, delay);
            && 0 <= r.remainingWaypoints <= c.remainingWaypoints
            && r.remainingLength <= c.remainingLength
            && (r.currentDelay == c.currentDelay || (delay > 0.0 && r.currentDelay == delay))
    decreases c.remainingWaypoints
  {
    if Continues(c) {
      var s := Step(c, waypoints, delay);
      StepArmsDelayOnReversal(c, waypoints, delay);
      assert s.cursor.remainingLength <= c.remainingLength;
      assert 0 <= s.cursor.waypoint < |waypoints| by {
        assert s.cursor.waypoint == c.waypoint || s.cursor.waypoint == NextWaypoint(c.waypoint, c.direction, |waypoints|).waypoint;
      }
      if !s.stop {
        TraverseBounds(s.cursor, waypoints, delay);
      }
    }
  }

  /** As written, the traversal can carry a platform further than its
      per-tick budget: with waypoints at 0, 1 and 100, budget 3 and the
      platform at 0 heading for the waypoint at 1, it ends the tick at 5. */
  lemma TraverseCanExceedBudget()
    ensures Traverse(Cursor(0.0, 1, 0, 0.0, 3.0, 3), [0.0, 1.0, 100.0], 0.0).position == 5.0
  {
    var c0 := Cursor(0.0, 1, 0, 0.0, 3.0, 3);
    var c1 := Cursor(3.0, 2, 0, 0.0, 2.0, 2);
    var c2 := Cursor(5.0, 2, 0, 0.0, 0.0, 1);
    assert Step(c0, [0.0, 1.0, 100.0], 0.0) == StepResult(c1, false);
    assert Step(c1, [0.0, 1.0, 100.0], 0.0) == StepResult(c2, false);
    assert Traverse(c2, [0.0, 1.0, 100.0], 0.0) == c2;
  }

  /** The dwell countdown: after a tick the countdown is the old one less
      the tick, floored at zero, unless a reversal re-armed it with the
      configured delay; while it is still running nothing else changes. */
  lemma TickDwell(p: PlatformData, positions: map<EntityRef, real>, deltaTime: real)
    requires p.Valid()
    ensures var r := Tick(p, positions, deltaTime);
            && (r.platform.currentDelay == Max(0.0, p.currentDelay - deltaTime)
                || (p.delay > 0.0 && r.platform.currentDelay == p.delay))
            && (Max(0.0, p.currentDelay - deltaTime) > 0.0 ==>
                  r == TickResult(p.(currentDelay := p.currentDelay - deltaTime), positions))
  {
    if Countdown(p.currentDelay, deltaTime) <= 0.0 && |p.waypoints| >= 2 {
      TraverseBounds(Cursor(p.position, p.currentWaypoint, p.currentDirection, Countdown(p.currentDelay, deltaTime),
                            Budget(p.speed, deltaTime), |p.waypoints|), p.waypoints, p.delay);
    }
  }

  /** A platform with fewer than two waypoints only counts its dwell down:
      it, its visual and its riders stay where they are. */
  lemma TickWithoutRoute(p: PlatformData, positions: map<EntityRef, real>, deltaTime: real)
    requires |p.waypoints| <= 1
    ensures Tick(p, positions, deltaTime) == TickResult(p.(currentDelay := Max(0.0, p.currentDelay - deltaTime)), positions)
  {
  }

  /** Only the traversal state changes; the route, speed, delay, visual and
      rider set are the component's configuration and stay, and the
      waypoint index stays usable. */
  lemma TickKeepsConfiguration(p: PlatformData, positions: map<EntityRef, real>, deltaTime: real)
    requires p.Valid()
    ensures var r := Tick(p, positions, deltaTime).platform;
            && r.Valid()
            && r.waypoints == p.waypoints && r.speed == p.speed && r.delay == p.delay
            && r.visual == p.visual && r.entities == p.entities
  {
  }

  /** Once the platform has moved, its visual twin stands where it stands
      (unless the twin is itself registered as a rider and moved again). */
  lemma TickSyncsVisual(p: PlatformData, positions: map<EntityRef, real>, deltaTime: real)
    requires p.Valid()
    requires Max(0.0, p.currentDelay - deltaTime) <= 0.0 && |p.waypoints| >= 2
    requires p.visual !in p.entities
    ensures var r := Tick(p, positions, deltaTime);
            && p.visual in r.positions && r.positions[p.visual] == r.platform.position
  {
  }

  /** The rider carry: every entity other than the visual twin that has a
      transform moves by exactly the platform's displacement of this tick
      when it is a rider, and not at all when it is not. No entity gains or
      loses a transform, other than the visual twin. */
  lemma TickCarriesRiders(p: PlatformData, positions: map<EntityRef, real>, deltaTime: real)
    requires p.Valid()
    ensures var r := Tick(p, positions, deltaTime);
            var positionDelta := r.platform.position - p.position;
            && r.positions.Keys - {p.visual} == positions.Keys - {p.visual}
            && forall e :: e in positions && e != p.visual ==>
                 r.positions[e] == if e in p.entities then positions[e] + positionDelta else positions[e]
  {
  }

  /** `OnAdded`: a new platform component starts with an empty rider set. */
  method OnAdded(platform: Platform)
    modifies platform`entities
    ensures platform.entities == {}
  {
    platform.entities := {};
  }

  /** `OnRemoved`: the rider set is released with the component. */
  method OnRemoved(platform: Platform)
    modifies platform`entities
    ensures platform.entities == {}
  {
    platform.entities := {};
  }
}
