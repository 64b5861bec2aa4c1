/** The room store (src/stores/roomStore.ts): the client, the joined room,
    its id, a connected flag, the connection state and the last error. */
module RoomStore {
  import opened Wrappers
  import opened ColyseusTypes
  import opened Transport

  datatype RoomState = RoomState(
    client: Option<ClientHandle>,
    room: Option<RoomHandle>,
    roomId: Option<string>,
    isConnected: bool,
    connectionState: ConnectionState,
    error: Option<string>)

  const Initial: RoomState := RoomState(None, None, None, false, Disconnected, None)

  /** JavaScript truthiness of a `string | null`: null and "" are falsy. */
  predicate Truthy(e: Option<string>) {
    e.Some? && e.value != ""
  }

  /** `setRoom(room)`: connected exactly when a room is given; without a
      room the state is disconnected and the room id null. */
  function AfterSetRoom(s: RoomState, room: Option<RoomHandle>): (t: RoomState)
    ensures t.room == room
    ensures t.isConnected <==> room.Some?
    ensures t.connectionState == Connected <==> room.Some?
    ensures room.None? ==> t.connectionState == Disconnected && t.roomId == None
    ensures room.Some? ==> t.roomId == room.value.id
    ensures t.client == s.client && t.error == s.error
  {
    s.(room := room,
       isConnected := room.Some?,
       connectionState := if room.Some? then Connected else Disconnected,
       roomId := if room.Some? then room.value.id else None)
  }

  /** `setConnectionState(state)`: `isConnected` holds exactly when the
      new state is `connected`. */
  function AfterSetConnectionState(s: RoomState, state: ConnectionState): (t: RoomState)
    ensures t.connectionState == state
    ensures t.isConnected <==> state == Connected
    ensures t.client == s.client && t.room == s.room && t.roomId == s.roomId && t.error == s.error
  {
    s.(connectionState := state, isConnected := state == Connected)
  }

  /** `setError(error)`: records the error; a truthy error also moves the
      state to `error`, a null or empty one leaves the state alone. The
      connected flag is never touched. */
  function AfterSetError(s: RoomState, error: Option<string>): (t: RoomState)
    ensures t.error == error
    ensures Truthy(error) ==> t.connectionState == Error
    ensures !Truthy(error) ==> t.connectionState == s.connectionState
    ensures t.isConnected == s.isConnected
    ensures t.client == s.client && t.room == s.room && t.roomId == s.roomId
  {
    var t := s.(error := error);
    if Truthy(error) then t.(connectionState := Error) else t
  }

  /** `disconnect()`: whatever the room and whether or not leaving it
      fails, ends with no room, not connected, `disconnected` and no room
      id; the client and the error are kept. */
  function AfterDisconnect(s: RoomState): (t: RoomState)
    ensures t.room == None && !t.isConnected && t.connectionState == Disconnected && t.roomId == None
    ensures t.client == s.client && t.error == s.error
  {
    s.(room := None, isConnected := false, connectionState := Disconnected, roomId := None)
  }

  lemma DisconnectIsIdempotent(s: RoomState)
    ensures AfterDisconnect(AfterDisconnect(s)) == AfterDisconnect(s)
  {
  }

  /** After `setError`, the connected flag and the connection state can
      disagree: a connected store that records an error keeps
      `isConnected` while its state is `error`. */
  lemma SetErrorCanDesync(s: RoomState, e: string)
    requires s.connectionState == Connected && s.isConnected && e != ""
    ensures AfterSetError(s, Some(e)).isConnected
    ensures AfterSetError(s, Some(e)).connectionState == Error
  {
  }

  class Store {
    var client: Option<ClientHandle>
    var room: Option<RoomHandle>
    var roomId: Option<string>
    var isConnected: bool
    var connectionState: ConnectionState
    var error: Option<string>

    function Snapshot(): RoomState
      reads this
    {
      RoomState(client, room, roomId, isConnected, connectionState, error)
    }

    constructor ()
      ensures Snapshot() == Initial
    {
      client, room, roomId := None, None, None;
      isConnected, connectionState, error := false, Disconnected, None;
    }

    method SetClient(c: ClientHandle)
      modifies this
      ensures Snapshot() == old(Snapshot()).(client := Some(c))
    {
      client := Some(c);
    }

    method SetRoom(r: Option<RoomHandle>)
      modifies this
      ensures Snapshot() == AfterSetRoom(old(Snapshot()), r)
    {
      room := r;
      isConnected := r.Some?;
      connectionState := if r.Some? then Connected else Disconnected;
      roomId := if r.Some? then r.value.id else None;
    }

    method SetRoomId(id: Option<string>)
      modifies this
      ensures Snapshot() == old(Snapshot()).(roomId := id)
    {
      roomId := id;
    }

    method SetConnectionState(state: ConnectionState)
      modifies this
      ensures Snapshot() == AfterSetConnectionState(old(Snapshot()), state)
    {
      connectionState := state;
      isConnected := state == Connected;
    }

    method SetError(e: Option<string>)
      modifies this
      ensures Snapshot() == AfterSetError(old(Snapshot()), e)
    {
      error := e;
      if Truthy(e) {
        connectionState := Error;
      }
    }

    /** `disconnect()` up to its `await`. With no room there is nothing
        to await and the fields are reset at once. With a room,
        `room.leave()` is requested and returned, and nothing changes until
        it settles (`LeaveSettled`). */
    method Disconnect() returns (leaving: Option<RoomHandle>)
      modifies this
      ensures leaving == old(room)
      ensures leaving.None? ==> Snapshot() == AfterDisconnect(old(Snapshot()))
      ensures leaving.Some? ==> Snapshot() == old(Snapshot())
    {
      leaving := room;
      if leaving.None? {
        room, isConnected, connectionState, roomId := None, false, Disconnected, None;
      }
    }

    /** The continuation of `disconnect()` once `room.leave()` has
        resolved or rejected (a rejection is caught and logged): the fields
        are reset on the store as it is now, so whatever was set while the
        leave was pending is overwritten. */
    method LeaveSettled()
      modifies this
      ensures Snapshot() == AfterDisconnect(old(Snapshot()))
    {
      room, isConnected, connectionState, roomId := None, false, Disconnected, None;
    }

    method Reset()
      modifies this
      ensures Snapshot() == Initial
    {
      client, room, roomId := None, None, None;
      isConnected, connectionState, error := false, Disconnected, None;
    }
  }

  /** A join that settles while a leave is pending is undone by the
      leave's continuation: the store ends with no room and disconnected. */
  method JoinDuringLeaveIsOverwritten(s: Store, joined: RoomHandle)
    requires s.room.Some?
    modifies s
    ensures s.room == None && !s.isConnected && s.connectionState == Disconnected && s.roomId == None
  {
    var leaving := s.Disconnect();
    s.SetRoom(Some(joined));
    assert s.connectionState == Connected;
    s.LeaveSettled();
  }
}
