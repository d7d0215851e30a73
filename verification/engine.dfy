/** Values the game engine hands to a player instance. Floats and vectors are
    only ever copied, so they are modelled as reals without arithmetic. */
module Engine {

  datatype Option<T> = None | Some(value: T)

  datatype Vector = Vector(x: real, y: real, z: real)

  /** The cached telemetry of one player: position, orientation and the
      fourteen health and stat values, in the order they are sent. */
  datatype Snapshot = Snapshot(
    position: Vector, orientation: Vector,
    health: real, blood: real, shock: real, bloodStatType: int,
    energy: real, water: real, heatComfort: real, wet: real, tremor: real, stamina: real,
    lifeSpanState: int, bloodyHands: bool, godMode: bool, invisibility: bool)

  /** The values a freshly created instance holds (engine defaults). */
  const EmptySnapshot := Snapshot(
    Vector(0.0, 0.0, 0.0), Vector(0.0, 0.0, 0.0),
    0.0, 0.0, 0.0, 0, 0.0, 0.0, 0.0, 0.0, 0.0, 0.0, 0, false, false, false)

  /** A live player entity (a PlayerBase), known only by identity. */
  datatype Entity = Entity(handle: nat)

  /** A connected identity as the transport reports it. */
  datatype PlayerIdentity = PlayerIdentity(id: string, plainId: string, name: string)

  /** The engine state an operation runs in: the mission flags, the game time,
      the local player (single player only) and what each entity reports
      right now for position, orientation, health and stats. */
  datatype Game = Game(
    isServer: bool, isMultiplayer: bool, isMissionHost: bool, isMissionOffline: bool,
    time: int, localPlayer: Option<Entity>, telemetry: Entity -> Snapshot)
}
