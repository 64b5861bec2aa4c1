/** The message enum, schema classes, message shapes and configuration
    constants shared by the client and the server (src/utils/colyseus.ts). */
module ColyseusTypes {
  import opened Wrappers

  /** A three-component vector: a three.js `Vector3`, the x/y/z of an `Euler`,
      or the schema `Vec3`. Components are exact reals. */
  datatype Vec3 = Vec3(x: real, y: real, z: real)

  /** The schema default of `Vec3`, and `new Vector3()` / `new Euler()`. */
  const Origin: Vec3 := Vec3(0.0, 0.0, 0.0)

  /** Message types, numbered by declaration order as a TypeScript enum is. */
  datatype MessageType = ChangeProfile | Move

  function MessageCode(m: MessageType): (code: nat)
    ensures code == 0 <==> m == ChangeProfile
    ensures code == 1 <==> m == Move
  {
    match m
    case ChangeProfile => 0
    case Move => 1
  }

  const DEFAULT_USERNAME: string := "Player"
  const IDLE: string := "idle"

  /** The `Player` schema: one entry of the room's `players` map. */
  datatype Player = Player(username: string, position: Vec3, rotation: Vec3, animation: string)

  /** A freshly constructed `Player` schema instance. */
  const DefaultPlayer: Player := Player(DEFAULT_USERNAME, Origin, Origin, IDLE)

  /** Outbound move message; every field is optional. */
  datatype MoveData = MoveData(position: Option<Vec3>, rotation: Option<Vec3>, animation: Option<string>)

  /** Outbound profile message; `username` is optional. */
  datatype ProfileData = ProfileData(username: Option<string>)

  /** The room state: the `players` MapSchema, as its entries in map order. */
  datatype MyRoomState = MyRoomState(players: seq<(string, Player)>)

  /** The connection-state union that src/stores/roomStore.ts,
      src/stores/multiplayerStore.ts and src/types/colyseus.ts each declare. */
  datatype ConnectionState = Disconnected | Connecting | Connected | Error

  /** `COLYSEUS_CONFIG`. */
  const DEFAULT_ENDPOINT: string := "http://localhost:2567"
  const DEFAULT_ROOM_NAME: string := "my_room"
}
