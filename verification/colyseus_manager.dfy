/** The `ColyseusManager` component (src/components/ColyseusManager.tsx):
    mirrors the room's players into the remote registry, except this
    client's own entry, sets the local id once, and sends the local pose
    when it has moved by more than a small epsilon since the last send.
    The registry members it calls (`setPlayer`, `clear`) are not defined
    by the registry store, so it talks to the upsert/remove/clear port. */
module ColyseusManager {
  import opened Wrappers
  import opened ColyseusTypes
  import opened Transport
  import opened StorePorts

  /** The change-detection threshold, per axis. */
  const EPSILON: real := 0.01

  function Abs(r: real): (a: real)
    ensures a >= 0.0 && (a == r || a == -r)
  {
    if r < 0.0 then -r else r
  }

  /** Some position axis moved by more than the threshold. */
  predicate PositionChanged(last: Vec3, p: Vec3) {
    Abs(p.x - last.x) > EPSILON || Abs(p.y - last.y) > EPSILON || Abs(p.z - last.z) > EPSILON
  }

  /** The yaw moved by more than the threshold; pitch and roll are ignored. */
  predicate RotationChanged(last: Vec3, r: Vec3) {
    Abs(r.y - last.y) > EPSILON
  }

  /** The upserts the initial `forEach` makes, in map order: every player
      but the one whose key is `self`. */
  function InitialUpserts(players: seq<(string, Player)>, self: string): (calls: seq<Call<Player>>)
    ensures |calls| <= |players|
    ensures forall i :: 0 <= i < |calls| ==> calls[i].UpsertCall?
  {
    if players == [] then []
    else
      (if players[0].0 != self then [UpsertCall(players[0].0, players[0].1)] else [])
        + InitialUpserts(players[1..], self)
  }

  /** The initial enumeration never upserts this client's own key. */
  lemma {:induction false} InitialUpsertsSkipSelf(players: seq<(string, Player)>, self: string)
    ensures NeverUpserts(InitialUpserts(players, self), self)
  {
    if players != [] {
      InitialUpsertsSkipSelf(players[1..], self);
    }
  }

  /** Every other player is upserted with its own schema entry. */
  lemma {:induction false} InitialUpsertsCoverOthers(players: seq<(string, Player)>, self: string, i: nat)
    requires i < |players| && players[i].0 != self
    ensures UpsertCall(players[i].0, players[i].1) in InitialUpserts(players, self)
  {
    if i > 0 {
      InitialUpsertsCoverOthers(players[1..], self, i - 1);
      assert players[1..][i - 1] == players[i];
    }
  }

  /** The set-id effect: the local id is set to the room's session id only
      when there is a room with a non-empty session id and no local id yet. */
  method SetIdEffect(room: Option<RoomHandle>, ids: LocalIdPort)
    modifies ids
    ensures room.Some? && room.value.sessionId != "" && old(ids.id) == "" ==> ids.id == room.value.sessionId
    ensures !(room.Some? && room.value.sessionId != "" && old(ids.id) == "") ==> ids.id == old(ids.id)
  {
    if room.Some? && room.value.sessionId != "" && ids.id == "" {
      ids.SetId(room.value.sessionId);
    }
  }

  /** The listen effect's set-up: without a state or a room it does
      nothing; otherwise every current player but this client is upserted,
      and the add/change/remove handlers below are registered. */
  method ListenEffect(state: Option<MyRoomState>, room: Option<RoomHandle>, registry: RegistryPort<Player>)
    returns (listening: bool)
    modifies registry
    ensures listening <==> state.Some? && room.Some?
    ensures !listening ==> registry.calls == old(registry.calls)
    ensures listening ==>
      registry.calls == old(registry.calls) + InitialUpserts(state.value.players, room.value.sessionId)
  {
    if state.None? || room.None? {
      return false;
    }
    var players := state.value.players;
    var self := room.value.sessionId;
    var i := 0;
    while i < |players|
      invariant 0 <= i <= |players|
      invariant registry.calls == old(registry.calls) + InitialUpserts(players[..i], self)
    {
      InitialUpsertsAppend(players[..i], players[i], self);
      assert players[..i + 1] == players[..i] + [players[i]];
      if players[i].0 != self {
        registry.Upsert(players[i].0, players[i].1);
      }
      i := i + 1;
    }
    assert players[..i] == players;
    listening := true;
  }

  lemma {:induction false} InitialUpsertsAppend(players: seq<(string, Player)>, e: (string, Player), self: string)
    ensures InitialUpserts(players + [e], self)
         == InitialUpserts(players, self) + (if e.0 != self then [UpsertCall(e.0, e.1)] else [])
  {
    if players == [] {
      assert [] + [e] == [e];
      assert [e][1..] == [];
    } else {
      assert (players + [e])[1..] == players[1..] + [e];
      InitialUpsertsAppend(players[1..], e, self);
    }
  }

  /** `onPlayerAdd`: every key but this client's is upserted. */
  method OnPlayerAdd(room: RoomHandle, player: Player, sessionId: string, registry: RegistryPort<Player>)
    modifies registry
    ensures sessionId == room.sessionId ==> registry.calls == old(registry.calls)
    ensures sessionId != room.sessionId ==> registry.calls == old(registry.calls) + [UpsertCall(sessionId, player)]
  {
    if sessionId != room.sessionId {
      registry.Upsert(sessionId, player);
    }
  }

  /** `onPlayerChange`: the same filter as the add handler. */
  method OnPlayerChange(room: RoomHandle, player: Player, sessionId: string, registry: RegistryPort<Player>)
    modifies registry
    ensures sessionId == room.sessionId ==> registry.calls == old(registry.calls)
    ensures sessionId != room.sessionId ==> registry.calls == old(registry.calls) + [UpsertCall(sessionId, player)]
  {
    if sessionId != room.sessionId {
      registry.Upsert(sessionId, player);
    }
  }

  /** `onPlayerRemove`: forwarded for every key, this client's included. */
  method OnPlayerRemove(sessionId: string, registry: RegistryPort<Player>)
    modifies registry
    ensures registry.calls == old(registry.calls) + [RemoveCall(sessionId)]
  {
    registry.Remove(sessionId);
  }

  /** The mount effect's clean-up, as far as the registry sees it. */
  method Unmount(registry: RegistryPort<Player>)
    modifies registry
    ensures registry.calls == old(registry.calls) + [ClearCall]
  {
    registry.Clear();
  }

  /** The component's last-sent refs and its send effect. */
  class Manager {
    var lastSentPosition: Vec3
    var lastSentRotation: Vec3

    constructor ()
      ensures lastSentPosition == Origin && lastSentRotation == Origin
    {
      lastSentPosition, lastSentRotation := Origin, Origin;
    }

    /** The send effect: with a room, and when the position or the yaw has
        moved past the threshold, sends MOVE with the full pose (no
        animation) and remembers what it sent; otherwise sends nothing and
        keeps the refs. */
    method SendEffect(room: Option<RoomHandle>, position: Vec3, rotation: Vec3)
      returns (sent: Option<(MessageType, MoveData)>)
      modifies this
      ensures sent.Some? <==>
        room.Some? && (PositionChanged(old(lastSentPosition), position) || RotationChanged(old(lastSentRotation), rotation))
      ensures sent.Some? ==>
        && sent.value == (Move, MoveData(Some(position), Some(rotation), None))
        && lastSentPosition == position && lastSentRotation == rotation
      ensures sent.None? ==>
        lastSentPosition == old(lastSentPosition) && lastSentRotation == old(lastSentRotation)
    {
      if room.None? {
        return None;
      }
      var posChanged := PositionChanged(lastSentPosition, position);
      var rotChanged := RotationChanged(lastSentRotation, rotation);
      sent := None;
      if posChanged || rotChanged {
        var moveData := MoveData(Some(position), Some(rotation), None);
        sent := Some((Move, moveData));
        lastSentPosition := position;
        lastSentRotation := rotation;
      }
    }
  }

  /** The threshold is strict: with a room, moving one axis by exactly
      EPSILON from the last-sent position sends nothing and keeps the refs,
      and then turning the yaw by 0.02 sends. */
  method ThresholdIsStrict(m: Manager, room: RoomHandle)
    returns (atEpsilon: Option<(MessageType, MoveData)>, pastEpsilon: Option<(MessageType, MoveData)>)
    modifies m
    ensures atEpsilon.None?
    ensures pastEpsilon.Some?
    ensures m.lastSentPosition == old(m.lastSentPosition)
    ensures m.lastSentRotation == old(m.lastSentRotation).(y := old(m.lastSentRotation).y + 0.02)
  {
    var p, r := m.lastSentPosition, m.lastSentRotation;
    atEpsilon := m.SendEffect(Some(room), p.(x := p.x + EPSILON), r);
    pastEpsilon := m.SendEffect(Some(room), p, r.(y := r.y + 0.02));
  }

  /** A second run of the send effect with the same pose never sends,
      whether or not the first one did. */
  method SendTwice(m: Manager, room: Option<RoomHandle>, position: Vec3, rotation: Vec3)
    returns (first: Option<(MessageType, MoveData)>, second: Option<(MessageType, MoveData)>)
    modifies m
    ensures second.None?
  {
    first := m.SendEffect(room, position, rotation);
    second := m.SendEffect(room, position, rotation);
  }

  /** A pose that differs from the last-sent one only in pitch and roll
      sends nothing and leaves the refs as they were. */
  method PitchAndRollAloneNeverSend(m: Manager, room: Option<RoomHandle>, pitch: real, roll: real)
    returns (sent: Option<(MessageType, MoveData)>)
    modifies m
    ensures sent.None?
    ensures m.lastSentPosition == old(m.lastSentPosition) && m.lastSentRotation == old(m.lastSentRotation)
  {
    sent := m.SendEffect(room, m.lastSentPosition, Vec3(pitch, m.lastSentRotation.y, roll));
  }
}
