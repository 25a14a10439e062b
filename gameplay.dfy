/** The baked gameplay data (spawn points and NPC waypoints) and the frame
    helpers that look players and random destinations up in it. */
module Gameplay {
  import opened Engine

  datatype SpawnPointData = SpawnPointData(position: Vec3, rotation: Rotation)

  datatype WaypointData = WaypointData(position: Vec3)

  /** The `GameplayData` asset: arrays baked from the scene in editor time. */
  datatype GameplayData = GameplayData(spawnPoints: seq<SpawnPointData>, waypoints: seq<WaypointData>)

  /** The `Player` component: which player controls the entity. */
  datatype Player = Player(playerRef: PlayerRef)

  /** One item of the engine's component iterator over `Player`. */
  datatype PlayerPair = PlayerPair(entity: EntityRef, component: Player)

  ghost predicate HasPlayer(players: seq<PlayerPair>, playerRef: PlayerRef) {
    exists i :: 0 <= i < |players| && players[i].component.playerRef == playerRef
  }

  /** Index `i` holds the first component in iteration order that belongs
      to `playerRef`. */
  ghost predicate IsFirstMatch(players: seq<PlayerPair>, playerRef: PlayerRef, i: int) {
    && 0 <= i < |players|
    && players[i].component.playerRef == playerRef
    && forall j :: 0 <= j < i ==> players[j].component.playerRef != playerRef
  }

  /** `Frame.GetPlayerEntity`: the entity of the first `Player` component,
      in iteration order, whose player is `playerRef`, or `EntityRef.None`. */
  function GetPlayerEntity(players: seq<PlayerPair>, playerRef: PlayerRef): (r: EntityRef)
    ensures HasPlayer(players, playerRef) ==>
              exists i :: IsFirstMatch(players, playerRef, i) && r == players[i].entity
    ensures !HasPlayer(players, playerRef) ==> r == NoEntity
  {
    if |players| == 0 then NoEntity
    else if players[0].component.playerRef == playerRef then
      assert IsFirstMatch(players, playerRef, 0);
      players[0].entity
    else
      var r := GetPlayerEntity(players[1..], playerRef);
      assert forall i :: IsFirstMatch(players[1..], playerRef, i) ==> IsFirstMatch(players, playerRef, i + 1);
      assert HasPlayer(players, playerRef) ==> HasPlayer(players[1..], playerRef);
      r
  }

  /** The search yields `EntityRef.None` exactly when no component matches,
      given that the iterator never hands out the `None` handle. */
  lemma {:induction false} GetPlayerEntityNoneIffAbsent(players: seq<PlayerPair>, playerRef: PlayerRef)
    requires forall i :: 0 <= i < |players| ==> players[i].entity != NoEntity
    ensures GetPlayerEntity(players, playerRef) == NoEntity <==> !HasPlayer(players, playerRef)
  {
  }

  /** `Frame.GetRandomSpawnPoint`: a spawn point drawn from the baked array. */
  method GetRandomSpawnPoint(data: GameplayData) returns (r: SpawnPointData)
    requires |data.spawnPoints| > 0
    ensures r in data.spawnPoints
  {
    var i := RngNext(0, |data.spawnPoints|);
    r := data.spawnPoints[i];
  }

  /** `Frame.GetRandomWaypoint`: a waypoint drawn from the baked array. */
  method GetRandomWaypoint(data: GameplayData) returns (r: WaypointData)
    requires |data.waypoints| > 0
    ensures r in data.waypoints
  {
    var i := RngNext(0, |data.waypoints|);
    r := data.waypoints[i];
  }
}
