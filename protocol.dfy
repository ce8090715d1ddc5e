/**
 * The message vocabulary shared by the room server (server.js) and the
 * browser-side adapter (js/MultiplayerClient.js). On the wire each message is
 * a flat JSON record with a `type` tag; here each tag is a constructor.
 */
module Protocol {
  import opened Wrappers

  /** A ship position `{x, y, z}`. */
  datatype Vec3 = Vec3(x: real, y: real, z: real)

  /** A ship orientation `{x, y, z, w}`. */
  datatype Quat = Quat(x: real, y: real, z: real, w: real)

  /** What a client sends to the server. */
  datatype ClientMsg =
    | CreateRoom                                               // create_room
    | JoinRoom(roomCode: string)                               // join_room
    | Ready                                                    // ready
    | State(position: Vec3, quaternion: Quat, speed: real)     // state
    | Finish(time: int)                                        // finish (elapsed ms)

  /** What the server sends to a client. */
  datatype ServerMsg =
    | RoomCreated(roomCode: string, playerId: int)             // room_created
    | RoomJoined(roomCode: string, playerId: int)              // room_joined
    | OpponentJoined                                           // opponent_joined
    | CountdownStart                                           // countdown_start
    | RaceStart(startTime: int)                                // race_start
    | OpponentState(position: Vec3, quaternion: Quat, speed: real) // opponent_state
    | OpponentFinished(time: int)                              // opponent_finished
    | RaceResult(winner: Option<int>, yourTime: Option<int>, opponentTime: Option<int>) // race_result
    | OpponentDisconnected                                     // opponent_disconnected
    | Error(message: string)                                   // error

  /** A decoded message: one of the known kinds, or a `type` tag no `case` matches. */
  datatype Envelope<M> = Known(msg: M) | UnknownType(tag: string)

  /** The two reasons a join is refused (server.js:98 and server.js:106). */
  const RoomNotFoundText: string := "房间不存在"
  const RoomFullText: string := "房间已满"
}
