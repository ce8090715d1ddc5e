/**
 * The room server of server.js: a registry of rooms keyed by code, each room a
 * small state machine over its (at most two) connections. Every handler runs to
 * completion before the next event, so each is one method. An outgoing
 * `ws.send(...)` appends `(recipient, message)` to `outbox`; a `setTimeout`
 * armed by `ready` appends the captured room to `timers`.
 */
module Server {
  import opened Wrappers
  import opened Protocol
  import RoomCode

  datatype RoomState = Waiting | Countdown | Racing | Finished

  /** One client connection, with the properties the handlers attach to it. */
  class Conn {
    var playerId: Option<int>
    var roomCode: Option<string>
    var isReady: bool
    var finished: bool
    var finishTime: Option<int>
    /** `readyState === WebSocket.OPEN`; false from the start of the closing handshake on */
    var open: bool

    /** A freshly accepted connection (server.js:29-31). */
    constructor ()
      ensures playerId == None && roomCode == None && !isReady
      ensures !finished && finishTime == None && open
    {
      playerId := None;
      roomCode := None;
      isReady := false;
      finished := false;
      finishTime := None;
      open := true;
    }

    /**
     * The closing handshake starts: `readyState` leaves OPEN before the
     * `close` event is delivered, so relays from then on pass this peer by
     * (server.js:174, server.js:240).
     */
    method BeginClose()
      modifies this`open
      ensures !open
    {
      open := false;
    }
  }

  class Room {
    var players: seq<Conn>
    var state: RoomState
    var startTime: Option<int>

    constructor (host: Conn)
      ensures players == [host] && state == Waiting && startTime == None
    {
      players := [host];
      state := Waiting;
      startTime := None;
    }
  }

  type Outgoing = (Conn, ServerMsg)

  /** `m` addressed to each of `ps` in turn: an unconditional `forEach` of sends. */
  function ToEach(ps: seq<Conn>, m: ServerMsg): (out: seq<Outgoing>)
    ensures |out| == |ps|
    ensures forall k {:trigger out[k]} :: 0 <= k < |ps| ==> out[k] == (ps[k], m)
  {
    if ps == [] then [] else ToEach(ps[..|ps| - 1], m) + [(ps[|ps| - 1], m)]
  }

  /** The players other than `sender`, in order (`filter(p => p !== ws)`). */
  function Others(ps: seq<Conn>, sender: Conn): seq<Conn>
  {
    if ps == [] then []
    else if ps[|ps| - 1] != sender then Others(ps[..|ps| - 1], sender) + [ps[|ps| - 1]]
    else Others(ps[..|ps| - 1], sender)
  }

  /** `Others` drops every occurrence of `sender` and keeps every other entry as often as it occurs. */
  lemma {:induction false} OthersRemovesSender(ps: seq<Conn>, sender: Conn)
    ensures multiset(Others(ps, sender)) == multiset(ps)[sender := 0]
    ensures sender !in Others(ps, sender)
    ensures |Others(ps, sender)| <= |ps|
  {
    if ps != [] {
      var init, last := ps[..|ps| - 1], ps[|ps| - 1];
      OthersRemovesSender(init, sender);
      assert ps == init + [last];
    }
  }

  /** The open players other than `sender`, in order: the recipients of a relay. */
  function OpenOthers(ps: seq<Conn>, sender: Conn): (r: seq<Conn>)
    reads ps
    ensures |r| <= |ps|
  {
    if ps == [] then []
    else
      var rest := OpenOthers(ps[..|ps| - 1], sender);
      var last := ps[|ps| - 1];
      if last != sender && last.open then rest + [last] else rest
  }

  /** A relay reaches exactly the open players other than the sender, each once per occurrence. */
  lemma {:induction false} OpenOthersRecipients(ps: seq<Conn>, sender: Conn)
    ensures forall p :: p in OpenOthers(ps, sender) ==> p in ps && p != sender && p.open
    ensures forall k :: 0 <= k < |ps| && ps[k] != sender && ps[k].open ==> ps[k] in OpenOthers(ps, sender)
    ensures multiset(OpenOthers(ps, sender)) <= multiset(ps)
  {
    if ps != [] {
      var init, last := ps[..|ps| - 1], ps[|ps| - 1];
      OpenOthersRecipients(init, sender);
      assert ps == init + [last];
      forall k | 0 <= k < |ps| - 1 ensures ps[k] == init[k] { }
    }
  }

  /** `room.players.filter(p => p.finished).length` */
  function CountFinished(ps: seq<Conn>): (n: nat)
    reads ps
    ensures n <= |ps|
  {
    if ps == [] then 0
    else CountFinished(ps[..|ps| - 1]) + if ps[|ps| - 1].finished then 1 else 0
  }

  /** No finisher means a count of 0; every player finished means a count of `|ps|`. */
  lemma {:induction false} CountFinishedExtremes(ps: seq<Conn>)
    ensures CountFinished(ps) == 0 <==> forall k :: 0 <= k < |ps| ==> !ps[k].finished
    ensures CountFinished(ps) == |ps| <==> forall k :: 0 <= k < |ps| ==> ps[k].finished
  {
    if ps != [] {
      var init := ps[..|ps| - 1];
      CountFinishedExtremes(init);
      forall k | 0 <= k < |ps| - 1 ensures ps[k] == init[k] { }
    }
  }

  /** `(a.finishTime || Infinity)`: a missing or zero finish time counts as +infinity. */
  datatype Key = Time(ms: int) | Never

  function KeyOf(t: Option<int>): Key {
    if t.None? || t.value == 0 then Never else Time(t.value)
  }

  /** JavaScript's `<` on keys, with `Infinity < Infinity` false. */
  predicate Before(a: Key, b: Key) {
    a.Time? && (b.Never? || a.ms < b.ms)
  }

  /** `w` holds a least key and no later index holds one: the last minimum. */
  ghost predicate IsLastMinimum(keys: seq<Key>, w: nat) {
    && w < |keys|
    && (forall j :: 0 <= j < w ==> !Before(keys[j], keys[w]))
    && (forall j :: w < j < |keys| ==> Before(keys[w], keys[j]))
  }

  /**
   * The index `players.reduce((a, b) => key(a) < key(b) ? a : b)` ends on:
   * the accumulator is kept only when strictly earlier, so a tie goes to
   * the later player.
   */
  function Reduce(keys: seq<Key>): (w: nat)
    requires |keys| > 0
    ensures IsLastMinimum(keys, w)
  {
    if |keys| == 1 then 0
    else
      var w := Reduce(keys[..|keys| - 1]);
      if Before(keys[w], keys[|keys| - 1]) then w else |keys| - 1
  }

  /** The last minimum is unique, so `Reduce` is the only index with that property. */
  lemma LastMinimumUnique(keys: seq<Key>, v: nat, w: nat)
    requires IsLastMinimum(keys, v) && IsLastMinimum(keys, w)
    ensures v == w
  {
    var kv, kw := keys[v], keys[w];
    assert !(v < w);
    assert !(w < v);
  }

  function FinishKeys(ps: seq<Conn>): (keys: seq<Key>)
    reads ps
    ensures |keys| == |ps|
  {
    if ps == [] then [] else FinishKeys(ps[..|ps| - 1]) + [KeyOf(ps[|ps| - 1].finishTime)]
  }

  lemma {:induction false} FinishKeysAt(ps: seq<Conn>, k: nat)
    requires k < |ps|
    ensures FinishKeys(ps)[k] == KeyOf(ps[k].finishTime)
  {
    if k < |ps| - 1 {
      FinishKeysAt(ps[..|ps| - 1], k);
    }
  }

  /**
   * Where `players.find(x => x !== p)` stops: the first index not holding `p`,
   * or `|ps|` when every entry is `p`.
   */
  function FirstOther(ps: seq<Conn>, p: Conn): (k: nat)
    ensures k <= |ps|
    ensures forall j :: 0 <= j < k ==> ps[j] == p
    ensures k < |ps| ==> ps[k] != p
  {
    if ps == [] || ps[0] != p then 0 else 1 + FirstOther(ps[1..], p)
  }

  /** `players.find(x => x !== p)?.finishTime` */
  function OpponentTime(ps: seq<Conn>, p: Conn): Option<int>
    reads ps
  {
    var k := FirstOther(ps, p);
    if k < |ps| then ps[k].finishTime else None
  }

  /** The `race_result` each of `ps` receives in a room whose players are `room`. */
  function Results(ps: seq<Conn>, room: seq<Conn>, winner: Option<int>): (out: seq<Outgoing>)
    reads ps, room
    ensures |out| == |ps|
  {
    if ps == [] then []
    else
      var p := ps[|ps| - 1];
      Results(ps[..|ps| - 1], room, winner) + [(p, RaceResult(winner, p.finishTime, OpponentTime(room, p)))]
  }

  /** `winner.playerId` for the player `reduce` settles on. */
  function WinnerId(ps: seq<Conn>): Option<int>
    requires |ps| >= 1
    reads ps
  {
    var keys := FinishKeys(ps);
    ps[Reduce(keys)].playerId
  }

  /** Each player receives one `race_result`: the shared winner, its own time, and the time of the first other player. */
  lemma {:induction false} ResultsAt(ps: seq<Conn>, room: seq<Conn>, winner: Option<int>, k: nat)
    requires k < |ps|
    ensures Results(ps, room, winner)[k]
            == (ps[k], RaceResult(winner, ps[k].finishTime, OpponentTime(room, ps[k])))
  {
    if k < |ps| - 1 {
      ResultsAt(ps[..|ps| - 1], room, winner, k);
    }
  }

  /** `players.length === 2 && players.every(p => p.isReady)` */
  predicate AllReady(ps: seq<Conn>)
    reads ps
  {
    |ps| == 2 && forall p :: p in ps ==> p.isReady
  }

  /** The room registry together with everything the handlers emit. */
  class Server {
    var rooms: map<string, Room>
    var outbox: seq<Outgoing>
    /** Rooms captured by armed countdown timers, in the order they fire. */
    var timers: seq<Room>

    /** Every registered room holds one or two players, and no room sits under two codes. */
    ghost predicate Valid()
      reads this, rooms.Values
    {
      && (forall c :: c in rooms ==> 1 <= |rooms[c].players| <= 2)
      && (forall c, d :: c in rooms && d in rooms && c != d ==> rooms[c] != rooms[d])
    }

    constructor ()
      ensures Valid() && rooms == map[] && outbox == [] && timers == []
    {
      rooms := map[];
      outbox := [];
      timers := [];
    }

    /** `rooms.get(code)`: keys are strings, so a missing code finds nothing. */
    function Lookup(code: Option<string>): (r: Option<Room>)
      reads this
      ensures r.Some? <==> code.Some? && code.value in rooms
      ensures r.Some? ==> r.value == rooms[code.value]
    {
      if code.Some? && code.value in rooms then Some(rooms[code.value]) else None
    }

    /** The room `Lookup(code)` finds, as a frame. */
    function Frame(code: Option<string>): set<Room>
      reads this
    {
      if code.Some? && code.value in rooms then {rooms[code.value]} else {}
    }

    /** The players of the room `Lookup(code)` finds, as a frame. */
    ghost function Members(code: Option<string>): set<Conn>
      reads this, Frame(code)
    {
      if code.Some? && code.value in rooms then set p | p in rooms[code.value].players else {}
    }

    method SendEach(ps: seq<Conn>, m: ServerMsg)
      modifies this`outbox
      ensures outbox == old(outbox) + ToEach(ps, m)
    {
      var i := 0;
      while i < |ps|
        invariant 0 <= i <= |ps|
        invariant outbox == old(outbox) + ToEach(ps[..i], m)
      {
        assert ps[..i + 1][..i] == ps[..i];
        outbox := outbox + [(ps[i], m)];
        i := i + 1;
      }
      assert ps[..|ps|] == ps;
    }

    /** The `race_result` loop (server.js:219-226): each player gets their own result. */
    method SendResults(room: seq<Conn>, winner: Option<int>)
      modifies this`outbox
      ensures outbox == old(outbox) + Results(room, room, winner)
    {
      var sends: seq<Outgoing> := [];
      var i := 0;
      while i < |room|
        invariant 0 <= i <= |room|
        invariant sends == Results(room[..i], room, winner)
      {
        var p := room[i];
        assert room[..i + 1][..i] == room[..i];
        sends := sends + [(p, RaceResult(winner, p.finishTime, OpponentTime(room, p)))];
        i := i + 1;
      }
      assert room[..|room|] == room;
      outbox := outbox + sends;
    }

    /**
     * What `create_room` leaves behind (server.js:72-90): a fresh waiting room
     * holding only `ws`, registered under the generated code over whatever
     * was there; `ws` is player 1 of that room and alone hears of it.
     */
    twostate predicate CreateRoomEffect(ws: Conn, r: real)
      requires 0.0 <= r < 1.0
      reads this, ws, rooms.Values
    {
      var code := RoomCode.GenerateRoomCode(r);
      && code in rooms && fresh(rooms[code])
      && rooms == old(rooms)[code := rooms[code]]
      && rooms[code].players == [ws] && rooms[code].state == Waiting
      && rooms[code].startTime == None
      && ws.playerId == Some(1) && ws.roomCode == Some(code)
      && unchanged(ws`isReady, ws`finished, ws`finishTime, ws`open)
      && outbox == old(outbox) + [(ws, RoomCreated(code, 1))]
      && timers == old(timers)
    }

    /** `create_room` (server.js:72-90), with `r` the draw of `Math.random()`. */
    method HandleCreateRoom(ws: Conn, r: real)
      requires Valid() && 0.0 <= r < 1.0
      modifies this`rooms, this`outbox, ws`playerId, ws`roomCode
      ensures Valid() && CreateRoomEffect(ws, r)
    {
      var code := RoomCode.GenerateRoomCode(r);
      var room := new Room(ws);
      rooms := rooms[code := room];
      ws.playerId := Some(1);
      ws.roomCode := Some(code);
      outbox := outbox + [(ws, RoomCreated(code, 1))];
    }

    /**
     * What `join_room` leaves behind (server.js:92-127): an unknown code or a
     * full room gets one error and changes nothing else; otherwise `ws` is
     * appended as player 2, and both it and the first player hear of it.
     */
    twostate predicate JoinRoomEffect(ws: Conn, code: string)
      reads this, ws, rooms.Values
    {
      && rooms == old(rooms) && timers == old(timers)
      && (code !in rooms ==>
            && outbox == old(outbox) + [(ws, Error(RoomNotFoundText))]
            && unchanged(ws))
      && (code in rooms && |old(rooms[code].players)| >= 2 ==>
            && outbox == old(outbox) + [(ws, Error(RoomFullText))]
            && unchanged(ws, rooms[code]))
      && (code in rooms && |old(rooms[code].players)| < 2 ==>
            && rooms[code].players == old(rooms[code].players) + [ws]
            && rooms[code].state == old(rooms[code].state)
            && rooms[code].startTime == old(rooms[code].startTime)
            && ws.playerId == Some(2) && ws.roomCode == Some(code)
            && unchanged(ws`isReady, ws`finished, ws`finishTime, ws`open)
            && outbox == old(outbox) + [(ws, RoomJoined(code, 2)),
                                        (rooms[code].players[0], OpponentJoined)])
    }

    /** `join_room` (server.js:92-127). */
    method HandleJoinRoom(ws: Conn, code: string)
      requires Valid()
      modifies this`outbox, ws`playerId, ws`roomCode, Frame(Some(code))
      ensures Valid() && JoinRoomEffect(ws, code)
    {
      if code !in rooms {
        outbox := outbox + [(ws, Error(RoomNotFoundText))];
        return;
      }
      var room := rooms[code];
      if |room.players| >= 2 {
        outbox := outbox + [(ws, Error(RoomFullText))];
        return;
      }
      room.players := room.players + [ws];
      ws.playerId := Some(2);
      ws.roomCode := Some(code);
      outbox := outbox + [(ws, RoomJoined(code, 2))];
      outbox := outbox + [(room.players[0], OpponentJoined)];
    }

    /**
     * What `ready` leaves behind (server.js:129-167): nothing without a room;
     * otherwise `ws` is ready, and once two players are all ready the room
     * counts down, every player hears so, and one more timer is armed.
     */
    twostate predicate ReadyEffect(ws: Conn)
      reads this, ws, rooms.Values, Members(ws.roomCode)
    {
      && rooms == old(rooms)
      && unchanged(ws`playerId, ws`roomCode, ws`finished, ws`finishTime, ws`open)
      && (Lookup(ws.roomCode).None? ==>
            unchanged(ws) && outbox == old(outbox) && timers == old(timers))
      && (Lookup(ws.roomCode).Some? ==>
            var room := Lookup(ws.roomCode).value;
            && ws.isReady
            && room.players == old(room.players) && room.startTime == old(room.startTime)
            && if AllReady(room.players) then
                 && room.state == Countdown
                 && outbox == old(outbox) + ToEach(room.players, CountdownStart)
                 && timers == old(timers) + [room]
               else
                 room.state == old(room.state) && outbox == old(outbox) && timers == old(timers))
    }

    /** `ready` (server.js:129-167); the armed `setTimeout` is recorded in `timers`. */
    method HandleReady(ws: Conn)
      requires Valid()
      modifies this`outbox, this`timers, ws`isReady, Frame(ws.roomCode)
      ensures Valid() && ReadyEffect(ws)
    {
      var found := Lookup(ws.roomCode);
      if found.None? {
        return;
      }
      var room := found.value;
      ws.isReady := true;
      if AllReady(room.players) {
        room.state := Countdown;
        SendEach(room.players, CountdownStart);
        timers := timers + [room];
      }
    }

    /**
     * The countdown callback (server.js:153-165), acting on the room it
     * captured whether or not that room is still registered.
     */
    method CountdownExpired(room: Room, now: int)
      requires Valid()
      modifies this`outbox, room`state, room`startTime
      ensures Valid()
      ensures room.state == Racing && room.startTime == Some(now)
      ensures outbox == old(outbox) + ToEach(room.players, RaceStart(now))
    {
      room.state := Racing;
      room.startTime := Some(now);
      SendEach(room.players, RaceStart(now));
    }

    /** The oldest armed timer fires (all share the same 5.5 s delay). */
    method FireNextTimer(now: int)
      requires Valid() && timers != []
      modifies this`outbox, this`timers, timers[0]
      ensures Valid() && timers == old(timers[1..])
      ensures old(timers[0]).state == Racing && old(timers[0]).startTime == Some(now)
      ensures old(timers[0]).players == old(timers[0].players)
      ensures outbox == old(outbox) + ToEach(old(timers[0]).players, RaceStart(now))
    {
      var room := timers[0];
      timers := timers[1..];
      CountdownExpired(room, now);
    }

    /**
     * What `state` leaves behind (server.js:169-184): while the room races,
     * every other open player hears the sender's position, orientation and
     * speed; otherwise nothing is sent.
     */
    twostate predicate StateEffect(ws: Conn, position: Vec3, quaternion: Quat, speed: real)
      reads this, ws, rooms.Values, Members(ws.roomCode)
    {
      var found := Lookup(ws.roomCode);
      && rooms == old(rooms) && timers == old(timers) && unchanged(ws)
      && if found.Some? && found.value.state == Racing then
           outbox == old(outbox) + ToEach(OpenOthers(found.value.players, ws),
                                          OpponentState(position, quaternion, speed))
         else
           outbox == old(outbox)
    }

    /** `state` (server.js:169-184): relayed only while racing, to the other open players. */
    method HandleState(ws: Conn, position: Vec3, quaternion: Quat, speed: real)
      modifies this`outbox
      ensures StateEffect(ws, position, quaternion, speed)
    {
      var found := Lookup(ws.roomCode);
      if found.None? || found.value.state != Racing {
        return;
      }
      SendEach(OpenOthers(found.value.players, ws), OpponentState(position, quaternion, speed));
    }

    /**
     * What `finish` leaves behind (server.js:186-230): nothing without a room;
     * otherwise the sender's time is recorded, a first finisher is announced
     * to the others, and a race with two finishers (or one player) is over,
     * with every player told the result.
     */
    twostate predicate FinishEffect(ws: Conn, time: int)
      reads this, ws, rooms.Values, Members(ws.roomCode)
    {
      && rooms == old(rooms) && timers == old(timers)
      && unchanged(ws`playerId, ws`roomCode, ws`isReady, ws`open)
      && (Lookup(ws.roomCode).None? ==> unchanged(ws) && outbox == old(outbox))
      && (Lookup(ws.roomCode).Some? ==>
            var room := Lookup(ws.roomCode).value;
            var ps := room.players;
            var n := CountFinished(ps);
            var over := n == 2 || |ps| == 1;
            && ws.finishTime == Some(time) && ws.finished
            && ps == old(room.players) && room.startTime == old(room.startTime)
            && room.state == (if over then Finished else old(room.state))
            && outbox == old(outbox)
                         + (if n == 1 then ToEach(Others(ps, ws), OpponentFinished(time)) else [])
                         + (if over then Results(ps, ps, WinnerId(ps)) else []))
    }

    /** `finish` (server.js:186-230). */
    method HandleFinish(ws: Conn, time: int)
      requires Valid()
      modifies this`outbox, ws`finishTime, ws`finished, Frame(ws.roomCode)
      ensures Valid() && FinishEffect(ws, time)
    {
      var found := Lookup(ws.roomCode);
      if found.None? {
        return;
      }
      var room := found.value;
      ws.finishTime := Some(time);
      ws.finished := true;
      Adjudicate(room, ws, time);
    }

    /**
     * The part of `finish` after the sender's time is recorded
     * (server.js:196-229): notify the others of a first finisher, and settle
     * the race once two players, or the only player, have finished.
     */
    method Adjudicate(room: Room, ws: Conn, time: int)
      requires |room.players| >= 1
      modifies this`outbox, room`state
      ensures var ps := room.players;
              var n := CountFinished(ps);
              var over := n == 2 || |ps| == 1;
              && room.state == (if over then Finished else old(room.state))
              && outbox == old(outbox)
                           + (if n == 1 then ToEach(Others(ps, ws), OpponentFinished(time)) else [])
                           + (if over then Results(ps, ps, WinnerId(ps)) else [])
    {
      var ps := room.players;
      NoticeFirstFinish(ps, ws, time);
      SettleRace(room);
    }

    /** With exactly one finisher, every other player hears its time (server.js:199-209). */
    method NoticeFirstFinish(ps: seq<Conn>, ws: Conn, time: int)
      modifies this`outbox
      ensures outbox == old(outbox)
                        + (if CountFinished(ps) == 1 then ToEach(Others(ps, ws), OpponentFinished(time)) else [])
    {
      if CountFinished(ps) == 1 {
        SendEach(Others(ps, ws), OpponentFinished(time));
      }
    }

    /**
     * With two finishers, or a room of one, the race is over: the room is
     * finished and each player gets its result (server.js:211-229).
     */
    method SettleRace(room: Room)
      requires |room.players| >= 1
      modifies this`outbox, room`state
      ensures var ps := room.players;
              var over := CountFinished(ps) == 2 || |ps| == 1;
              && room.state == (if over then Finished else old(room.state))
              && outbox == old(outbox) + (if over then Results(ps, ps, WinnerId(ps)) else [])
    {
      var ps := room.players;
      var n := CountFinished(ps);
      if n == 2 || |ps| == 1 {
        var winner := WinnerId(ps);
        room.state := Finished;
        SendResults(ps, winner);
      }
    }

    /**
     * What `handleDisconnect` leaves behind (server.js:232-255), given the
     * room `found` that `ws`'s code named beforehand: nothing without a code
     * or a room; otherwise the other open players hear of it, `ws` leaves the
     * room, and the room leaves the registry exactly when it is empty.
     */
    twostate predicate DisconnectEffect(ws: Conn, found: Option<Room>)
      reads this, ws, if found.Some? then {found.value} else {}
    {
      && ws.roomCode == old(ws.roomCode)
      && unchanged(ws`playerId, ws`isReady, ws`finished, ws`finishTime)
      && found == old(Lookup(ws.roomCode))
      && timers == old(timers)
      && (found.None? || ws.roomCode == Some("") ==> rooms == old(rooms) && outbox == old(outbox))
      && (found.Some? && ws.roomCode != Some("") ==>
            var code := ws.roomCode.value;
            var room := found.value;
            && room.players == Others(old(room.players), ws)
            && room.state == old(room.state) && room.startTime == old(room.startTime)
            && outbox == old(outbox) + ToEach(old(OpenOthers(room.players, ws)), OpponentDisconnected)
            && (code in rooms <==> room.players != [])
            && rooms == if room.players == [] then old(rooms) - {code} else old(rooms))
    }

    /** The `close` event (server.js:232-255): `handleDisconnect`. */
    method HandleDisconnect(ws: Conn)
      requires Valid()
      modifies this`rooms, this`outbox, Frame(ws.roomCode)
      ensures Valid() && DisconnectEffect(ws, old(Lookup(ws.roomCode)))
    {
      if ws.roomCode.None? || ws.roomCode.value == "" {
        return;
      }
      var code := ws.roomCode.value;
      if code !in rooms {
        return;
      }
      var room := rooms[code];
      var targets := OpenOthers(room.players, ws);
      assert targets == old(OpenOthers(room.players, ws));
      SendEach(targets, OpponentDisconnected);
      OthersRemovesSender(room.players, ws);
      room.players := Others(room.players, ws);
      if |room.players| == 0 {
        rooms := rooms - {code};
      }
      assert Valid() by {
        forall c | c in rooms ensures 1 <= |rooms[c].players| <= 2 {
          if c != code {
            assert rooms[c] != room;
          }
        }
      }
    }

    /** The transport closes `ws`: its `readyState` leaves OPEN, then `handleDisconnect` runs. */
    method Close(ws: Conn)
      requires Valid()
      modifies this`rooms, this`outbox, ws`open, Frame(ws.roomCode)
      ensures Valid() && !ws.open && DisconnectEffect(ws, old(Lookup(ws.roomCode)))
    {
      ws.open := false;
      if Lookup(ws.roomCode).Some? {
        // who hears of the close does not depend on `ws`'s own flag
        ghost var ps := Lookup(ws.roomCode).value.players;
        ghost var i := 0;
        while i < |ps|
          invariant 0 <= i <= |ps|
          invariant OpenOthers(ps[..i], ws) == old(OpenOthers(ps[..i], ws))
        {
          assert ps[..i + 1][..i] == ps[..i];
          i := i + 1;
        }
        assert ps[..|ps|] == ps;
      }
      HandleDisconnect(ws);
    }

    /** The rooms a message from `ws` may change: the one it names or the sender's own. */
    function Touched(ws: Conn, env: Envelope<ClientMsg>): set<Room>
      reads this, ws
    {
      match env
      case UnknownType(_) => {}
      case Known(msg) =>
        match msg
        case JoinRoom(code) => Frame(Some(code))
        case Ready => Frame(ws.roomCode)
        case Finish(_) => Frame(ws.roomCode)
        case _ => {}
    }

    /**
     * `handleMessage` (server.js:52-70): dispatch on the message kind; a kind
     * no `case` names is dropped. `r` is the draw `create_room` consumes.
     */
    method HandleMessage(ws: Conn, env: Envelope<ClientMsg>, r: real)
      requires Valid() && 0.0 <= r < 1.0
      modifies this, ws, Touched(ws, env)
      ensures Valid()
      ensures env.UnknownType? ==>
                && rooms == old(rooms) && outbox == old(outbox) && timers == old(timers)
                && unchanged(ws)
      ensures env.Known? && env.msg.CreateRoom? ==> CreateRoomEffect(ws, r)
      ensures env.Known? && env.msg.JoinRoom? ==> JoinRoomEffect(ws, env.msg.roomCode)
      ensures env.Known? && env.msg.Ready? ==> ReadyEffect(ws)
      ensures env.Known? && env.msg.State? ==>
                StateEffect(ws, env.msg.position, env.msg.quaternion, env.msg.speed)
      ensures env.Known? && env.msg.Finish? ==> FinishEffect(ws, env.msg.time)
    {
      match env
      case UnknownType(_) =>
      case Known(msg) =>
        match msg
        case CreateRoom => HandleCreateRoom(ws, r);
        case JoinRoom(code) => HandleJoinRoom(ws, code);
        case Ready => HandleReady(ws);
        case State(position, quaternion, speed) => HandleState(ws, position, quaternion, speed);
        case Finish(time) => HandleFinish(ws, time);
    }
  }
}
