/** The throttled telemetry cache of a player instance (JMPlayerInstance.Update). */
module Telemetry {
  import opened Engine

  /** Minimum number of game-time units between two refreshes. */
  const RefreshInterval := 100

  /** The fields Update reads and writes. */
  datatype TelemetryState = TelemetryState(playerObject: Option<Entity>, lastUpdated: int, snapshot: Snapshot)

  /** The state after one Update: on the server, once the interval has
      elapsed, a single-player game first re-binds the player object to the
      local player; then, if there is a player object, the timestamp becomes
      the current time and the snapshot the entity's current readings. */
  function Refreshed(game: Game, t: TelemetryState): (r: TelemetryState)
  {
    if game.isServer && game.time - t.lastUpdated >= RefreshInterval then
      var obj := if !game.isMultiplayer then game.localPlayer else t.playerObject;
      if obj.Some? then TelemetryState(obj, game.time, game.telemetry(obj.value))
      else t.(playerObject := obj)
    else t
  }

  /** The timestamp and the snapshot change only when all three conditions
      hold: running on the server, the interval has elapsed, and there is a
      player object; when they hold, the timestamp is the current time and the
      snapshot is what that entity reports now. */
  lemma RefreshOnlyWhenDue(game: Game, t: TelemetryState)
    ensures var r := Refreshed(game, t);
      (r.lastUpdated != t.lastUpdated || r.snapshot != t.snapshot) ==>
        game.isServer && game.time - t.lastUpdated >= RefreshInterval && r.playerObject.Some?
    ensures var r := Refreshed(game, t);
      game.isServer && game.time - t.lastUpdated >= RefreshInterval && r.playerObject.Some? ==>
        r.lastUpdated == game.time && r.snapshot == game.telemetry(r.playerObject.value)
  {
  }

  /** A client never touches the cache. */
  lemma ClientNeverRefreshes(game: Game, t: TelemetryState)
    requires !game.isServer
    ensures Refreshed(game, t) == t
  {
  }

  /** In a multiplayer game an instance without a player object is never
      refreshed: the timestamp, the snapshot and the (absent) player object stay. */
  lemma UnboundNeverRefreshes(game: Game, t: TelemetryState)
    requires game.isMultiplayer && t.playerObject == None
    ensures Refreshed(game, t) == t
  {
  }

  /** Two updates less than the interval apart: if the first refreshed the
      cache, the second changes neither the timestamp nor the snapshot. */
  lemma SecondUpdateWithinIntervalKeepsSnapshot(first: Game, second: Game, t: TelemetryState)
    requires Refreshed(first, t).lastUpdated == first.time
    requires second.time - first.time < RefreshInterval
    ensures Refreshed(second, Refreshed(first, t)).snapshot == Refreshed(first, t).snapshot
    ensures Refreshed(second, Refreshed(first, t)).lastUpdated == first.time
  {
  }

  /** Two server updates at least the interval apart in a multiplayer game
      with a bound player: the second snapshot holds the latest readings. */
  lemma SecondUpdateAfterIntervalRefreshes(first: Game, second: Game, t: TelemetryState)
    requires second.isServer && second.isMultiplayer
    requires t.playerObject.Some?
    requires Refreshed(first, t).lastUpdated == first.time
    requires second.time - first.time >= RefreshInterval
    ensures Refreshed(second, Refreshed(first, t)).snapshot == second.telemetry(Refreshed(first, t).playerObject.value)
    ensures Refreshed(second, Refreshed(first, t)).lastUpdated == second.time
  {
  }
}
