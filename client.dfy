/**
 * The browser-side protocol adapter of js/MultiplayerClient.js: one object
 * whose fields track the connection and the room, whose actions are sends
 * guarded by `connected`, and whose `handleMessage` dispatches each server
 * message to one optional callback. Transport events (open, error, close,
 * message) are method calls; each `socket.send(...)` appends to `sent`; each
 * callback invocation appends to `fired`.
 */
module Client {
  import opened Wrappers
  import opened Protocol

  /** `getDefaultServerUrl()`, given the page's `window.location.hostname`. */
  function DefaultServerUrl(hostname: string): (url: string)
    ensures |url| > 10 && url[..5] == "ws://" && url[|url| - 5..] == ":3001"
    ensures hostname != "" ==> url[5..|url| - 5] == hostname
    ensures hostname == "" ==> url[5..|url| - 5] == "localhost"
  {
    var host := if hostname != "" then hostname else "localhost";
    var url := "ws://" + host + ":3001";
    assert url[5..|url| - 5] == host;
    url
  }

  /** The value stored in `opponentState` and handed to its callback. */
  datatype OpponentView = OpponentView(position: Vec3, quaternion: Quat, speed: real)

  /** The callback properties `onRoomCreated` ... `onError`. */
  datatype Slot =
    | OnRoomCreated | OnRoomJoined | OnOpponentJoined | OnCountdownStart | OnRaceStart
    | OnOpponentState | OnOpponentFinished | OnRaceResult | OnOpponentDisconnected | OnError

  /** One invocation of a callback, with the argument it was passed. */
  datatype Call =
    | RoomCreatedCall(roomCode: string)
    | RoomJoinedCall(roomCode: string)
    | OpponentJoinedCall
    | CountdownStartCall
    | RaceStartCall(startTime: int)
    | OpponentStateCall(view: OpponentView)
    | OpponentFinishedCall(time: int)
    | RaceResultCall(result: ServerMsg)
    | OpponentDisconnectedCall
    | ErrorCall(message: string)

  /** The callback slot each message kind is routed to. */
  function SlotFor(m: ServerMsg): Slot {
    match m
    case RoomCreated(_, _) => OnRoomCreated
    case RoomJoined(_, _) => OnRoomJoined
    case OpponentJoined => OnOpponentJoined
    case CountdownStart => OnCountdownStart
    case RaceStart(_) => OnRaceStart
    case OpponentState(_, _, _) => OnOpponentState
    case OpponentFinished(_) => OnOpponentFinished
    case RaceResult(_, _, _) => OnRaceResult
    case OpponentDisconnected => OnOpponentDisconnected
    case Error(_) => OnError
  }

  /** The view `opponent_state` stores: exactly its position, quaternion and speed. */
  function ViewOf(m: ServerMsg): OpponentView
    requires m.OpponentState?
  {
    OpponentView(m.position, m.quaternion, m.speed)
  }

  /** The callback invocation a message triggers when its slot is set. */
  function CallFor(m: ServerMsg): (c: Call)
    ensures SlotOfCall(c) == SlotFor(m)
  {
    match m
    case RoomCreated(code, _) => RoomCreatedCall(code)
    case RoomJoined(code, _) => RoomJoinedCall(code)
    case OpponentJoined => OpponentJoinedCall
    case CountdownStart => CountdownStartCall
    case RaceStart(t) => RaceStartCall(t)
    case OpponentState(_, _, _) => OpponentStateCall(ViewOf(m))
    case OpponentFinished(t) => OpponentFinishedCall(t)
    case RaceResult(_, _, _) => RaceResultCall(m)
    case OpponentDisconnected => OpponentDisconnectedCall
    case Error(text) => ErrorCall(text)
  }

  /**
   * A callback sees the whole message it was triggered by, except the
   * `playerId` of `room_created` / `room_joined`, which only reaches the
   * client's fields.
   */
  lemma CallForLosesOnlyPlayerId(m1: ServerMsg, m2: ServerMsg)
    requires CallFor(m1) == CallFor(m2)
    ensures m1.RoomCreated? || m1.RoomJoined? || m1 == m2
    ensures (m1.RoomCreated? || m1.RoomJoined?) ==>
              m1.roomCode == m2.roomCode && SlotFor(m1) == SlotFor(m2)
  {
  }

  function SlotOfCall(c: Call): Slot {
    match c
    case RoomCreatedCall(_) => OnRoomCreated
    case RoomJoinedCall(_) => OnRoomJoined
    case OpponentJoinedCall => OnOpponentJoined
    case CountdownStartCall => OnCountdownStart
    case RaceStartCall(_) => OnRaceStart
    case OpponentStateCall(_) => OnOpponentState
    case OpponentFinishedCall(_) => OnOpponentFinished
    case RaceResultCall(_) => OnRaceResult
    case OpponentDisconnectedCall => OnOpponentDisconnected
    case ErrorCall(_) => OnError
  }

  /** The promise `connect` returns. */
  datatype Outcome = NotRequested | Pending | Resolved | Rejected(reason: string)

  /** The reason `connect` rejects with (js/MultiplayerClient.js:48). */
  const ConnectFailedText: string := "无法连接到服务器"

  class MultiplayerClient {
    /** The URL of the current WebSocket; `None` is `socket: null`. */
    var socket: Option<string>
    var connected: bool
    var roomCode: Option<string>
    var playerId: Option<int>
    var isHost: bool
    var opponentState: Option<OpponentView>
    /** The callback slots the page has set. */
    var installed: set<Slot>
    /** The promise of the latest `connect`. */
    var connection: Outcome
    /** Everything sent on the socket, in order. */
    var sent: seq<ClientMsg>
    /** Every callback invocation, in order. */
    var fired: seq<Call>

    /** `connected` is only ever true while there is a socket to send on. */
    ghost predicate Valid()
      reads this
    {
      connected ==> socket.Some?
    }

    /** The object literal (js/MultiplayerClient.js:6-24). */
    constructor ()
      ensures Valid()
      ensures socket == None && !connected && roomCode == None && playerId == None
      ensures !isHost && opponentState == None && installed == {}
      ensures connection == NotRequested && sent == [] && fired == []
    {
      socket := None;
      connected := false;
      roomCode := None;
      playerId := None;
      isHost := false;
      opponentState := None;
      installed := {};
      connection := NotRequested;
      sent := [];
      fired := [];
    }

    /** The page assigns (or clears) one `onX` property. */
    method SetCallback(slot: Slot, install: bool)
      modifies this`installed
      ensures installed == if install then old(installed) + {slot} else old(installed) - {slot}
    {
      installed := if install then installed + {slot} else installed - {slot};
    }

    /** `connect(serverUrl)`: a new socket, and a pending promise (js/MultiplayerClient.js:30-58). */
    method Connect(serverUrl: string)
      requires Valid()
      modifies this`socket, this`connection
      ensures Valid()
      ensures socket == Some(serverUrl) && connection == Pending
    {
      socket := Some(serverUrl);
      connection := Pending;
    }

    /** The socket's `onopen`: connected, and the promise resolves (js/MultiplayerClient.js:35-39). */
    method Opened()
      requires Valid() && socket.Some?
      modifies this`connected, this`connection
      ensures Valid() && connected
      ensures connection == if old(connection) == Pending then Resolved else old(connection)
    {
      connected := true;
      if connection == Pending {
        connection := Resolved;
      }
    }

    /** The socket's `onerror`: the promise rejects; no field changes (js/MultiplayerClient.js:46-49). */
    method Errored()
      requires Valid()
      modifies this`connection
      ensures Valid()
      ensures connection == if old(connection) == Pending then Rejected(ConnectFailedText) else old(connection)
    {
      if connection == Pending {
        connection := Rejected(ConnectFailedText);
      }
    }

    /** The socket's `onclose`: no longer connected (js/MultiplayerClient.js:41-44). */
    method Closed()
      requires Valid()
      modifies this`connected
      ensures Valid() && !connected
    {
      connected := false;
    }

    /** `disconnect()` (js/MultiplayerClient.js:63-71): `isHost` and `opponentState` survive. */
    method Disconnect()
      requires Valid()
      modifies this`socket, this`connected, this`roomCode, this`playerId
      ensures Valid()
      ensures socket == None && !connected && roomCode == None && playerId == None
    {
      if socket.Some? {
        socket := None;
      }
      connected := false;
      roomCode := None;
      playerId := None;
    }

    /** `createRoom()` (js/MultiplayerClient.js:76-80). */
    method CreateRoom()
      requires Valid()
      modifies this`isHost, this`sent
      ensures Valid()
      ensures !connected ==> isHost == old(isHost) && sent == old(sent)
      ensures connected ==> isHost && sent == old(sent) + [ClientMsg.CreateRoom]
    {
      if !connected {
        return;
      }
      isHost := true;
      sent := sent + [ClientMsg.CreateRoom];
    }

    /** `joinRoom(roomCode)` (js/MultiplayerClient.js:86-93): the code goes out unchanged. */
    method JoinRoom(code: string)
      requires Valid()
      modifies this`isHost, this`sent
      ensures Valid()
      ensures !connected ==> isHost == old(isHost) && sent == old(sent)
      ensures connected ==> !isHost && sent == old(sent) + [ClientMsg.JoinRoom(code)]
    {
      if !connected {
        return;
      }
      isHost := false;
      sent := sent + [ClientMsg.JoinRoom(code)];
    }

    /** `ready()` (js/MultiplayerClient.js:98-101). */
    method Ready()
      requires Valid()
      modifies this`sent
      ensures Valid()
      ensures sent == if connected then old(sent) + [ClientMsg.Ready] else old(sent)
    {
      if !connected {
        return;
      }
      sent := sent + [ClientMsg.Ready];
    }

    /**
     * `sendState(position, quaternion, speed)` (js/MultiplayerClient.js:106-115):
     * only the x, y, z / x, y, z, w components and the speed go out.
     */
    method SendState(position: Vec3, quaternion: Quat, speed: real)
      requires Valid()
      modifies this`sent
      ensures Valid()
      ensures sent == if connected && socket.Some? then
                        old(sent) + [ClientMsg.State(Vec3(position.x, position.y, position.z),
                                                     Quat(quaternion.x, quaternion.y, quaternion.z, quaternion.w),
                                                     speed)]
                      else old(sent)
    {
      if !connected || socket.None? {
        return;
      }
      sent := sent + [ClientMsg.State(Vec3(position.x, position.y, position.z),
                                      Quat(quaternion.x, quaternion.y, quaternion.z, quaternion.w),
                                      speed)];
    }

    /** `sendFinish(time)` (js/MultiplayerClient.js:120-126). */
    method SendFinish(time: int)
      requires Valid()
      modifies this`sent
      ensures Valid()
      ensures sent == if connected then old(sent) + [ClientMsg.Finish(time)] else old(sent)
    {
      if !connected {
        return;
      }
      sent := sent + [ClientMsg.Finish(time)];
    }

    /**
     * `handleMessage(msg)` (js/MultiplayerClient.js:131-185): only
     * `room_created`/`room_joined` and `opponent_state` write fields; every
     * known kind invokes its own callback when that is set; an unknown kind
     * does nothing at all.
     */
    method HandleMessage(env: Envelope<ServerMsg>)
      requires Valid()
      modifies this`roomCode, this`playerId, this`opponentState, this`fired
      ensures Valid()
      ensures env.UnknownType? ==> unchanged(this)
      ensures env.Known? ==>
                var m := env.msg;
                && fired == old(fired) + (if SlotFor(m) in installed then [CallFor(m)] else [])
                && (if m.RoomCreated? || m.RoomJoined? then
                      roomCode == Some(m.roomCode) && playerId == Some(m.playerId)
                    else
                      roomCode == old(roomCode) && playerId == old(playerId))
                && opponentState == (if m.OpponentState? then Some(ViewOf(m)) else old(opponentState))
    {
      if env.UnknownType? {
        return;
      }
      var m := env.msg;
      match m {
        case RoomCreated(code, id) =>
          roomCode := Some(code);
          playerId := Some(id);
        case RoomJoined(code, id) =>
          roomCode := Some(code);
          playerId := Some(id);
        case OpponentState(position, quaternion, speed) =>
          opponentState := Some(OpponentView(position, quaternion, speed));
        case _ =>
      }
      if SlotFor(m) in installed {
        fired := fired + [CallFor(m)];
      }
    }
  }
}
