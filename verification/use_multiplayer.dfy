/** The `useMultiplayer` hook (src/hooks/useMultiplayer.ts): sends each
    channel (position, rotation, animation) through the multiplayer store
    when it differs exactly from what was last sent, and mirrors room
    players into the remote registry. The registry calls it makes
    (`addPlayer(id, name)`, `updatePlayerPosition(id, x, y, z)`, ...,
    `clear`) do not match the registry store's members, so they go to the
    upsert/remove/clear port, one payload kind per call. */
module UseMultiplayer {
  import opened Wrappers
  import opened ColyseusTypes
  import opened Transport
  import opened StorePorts
  import MultiplayerStore

  /** What the hook asks the registry to upsert. */
  datatype Update =
    | Named(username: string)
    | MovedTo(position: Vec3)
    | TurnedTo(rotation: Vec3)
    | Animated(animation: string)

  /** A room player as the hook sees it: pose fields may be missing at run
      time, and `onChange` may be absent. */
  datatype PlayerState = PlayerState(
    username: string,
    position: Option<Vec3>,
    rotation: Option<Vec3>,
    animation: string,
    hasOnChange: bool)

  /** The effects' common gate. */
  predicate CanSend(ms: MultiplayerStore.Store)
    reads ms
  {
    ms.connectionState == Connected && ms.room.Some?
  }

  /** The upserts one change notification makes, in order: position if
      present, rotation if present, animation if non-empty. */
  function ChangeUpdates(sessionId: string, p: PlayerState): (calls: seq<Call<Update>>)
    ensures p.position.Some? ==> UpsertCall(sessionId, MovedTo(p.position.value)) in calls
    ensures p.rotation.Some? ==> UpsertCall(sessionId, TurnedTo(p.rotation.value)) in calls
    ensures p.animation != "" ==> UpsertCall(sessionId, Animated(p.animation)) in calls
    ensures forall c :: c in calls ==>
      || (p.position.Some? && c == UpsertCall(sessionId, MovedTo(p.position.value)))
      || (p.rotation.Some? && c == UpsertCall(sessionId, TurnedTo(p.rotation.value)))
      || (p.animation != "" && c == UpsertCall(sessionId, Animated(p.animation)))
    ensures |calls| <= 3
    ensures p.position.Some? ==> |calls| >= 1 && calls[0] == UpsertCall(sessionId, MovedTo(p.position.value))
    ensures p.position.None? && p.rotation.Some? ==>
      |calls| >= 1 && calls[0] == UpsertCall(sessionId, TurnedTo(p.rotation.value))
    ensures p.position.Some? && p.rotation.Some? ==>
      |calls| >= 2 && calls[1] == UpsertCall(sessionId, TurnedTo(p.rotation.value))
    ensures p.animation != "" ==> |calls| >= 1 && calls[|calls| - 1] == UpsertCall(sessionId, Animated(p.animation))
  {
    (if p.position.Some? then [UpsertCall(sessionId, MovedTo(p.position.value))] else [])
      + (if p.rotation.Some? then [UpsertCall(sessionId, TurnedTo(p.rotation.value))] else [])
      + (if p.animation != "" then [UpsertCall(sessionId, Animated(p.animation))] else [])
  }

  /** `handlePlayerAdd`: this client's own entry is ignored; any other is
      added under its name, "Player" when the name is empty, and the
      per-player change listener is attached when the player offers one. */
  method HandlePlayerAdd(room: RoomHandle, player: PlayerState, sessionId: string, registry: RegistryPort<Update>)
    returns (changeListener: bool)
    modifies registry
    ensures sessionId == room.sessionId ==> registry.calls == old(registry.calls) && !changeListener
    ensures sessionId != room.sessionId ==>
      && registry.calls == old(registry.calls) + [UpsertCall(sessionId, Named(if player.username != "" then player.username else DEFAULT_USERNAME))]
      && (changeListener <==> player.hasOnChange)
  {
    if sessionId == room.sessionId {
      return false;
    }
    registry.Upsert(sessionId, Named(if player.username != "" then player.username else DEFAULT_USERNAME));
    changeListener := player.hasOnChange;
  }

  /** The per-player change listener, reading the player's current fields. */
  method HandlePlayerChange(sessionId: string, player: PlayerState, registry: RegistryPort<Update>)
    modifies registry
    ensures registry.calls == old(registry.calls) + ChangeUpdates(sessionId, player)
  {
    if player.position.Some? {
      registry.Upsert(sessionId, MovedTo(player.position.value));
    }
    if player.rotation.Some? {
      registry.Upsert(sessionId, TurnedTo(player.rotation.value));
    }
    if player.animation != "" {
      registry.Upsert(sessionId, Animated(player.animation));
    }
  }

  /** `handlePlayerRemove`: no filter. */
  method HandlePlayerRemove(sessionId: string, registry: RegistryPort<Update>)
    modifies registry
    ensures registry.calls == old(registry.calls) + [RemoveCall(sessionId)]
  {
    registry.Remove(sessionId);
  }

  /** The listen effect's clean-up. */
  method Cleanup(registry: RegistryPort<Update>)
    modifies registry
    ensures registry.calls == old(registry.calls) + [ClearCall]
  {
    registry.Clear();
  }

  /** The hook's last-sent refs and its three send effects. */
  class Hook {
    var lastSentPosition: Vec3
    var lastSentRotation: Vec3
    var lastSentAnimation: string

    constructor ()
      ensures lastSentPosition == Origin && lastSentRotation == Origin && lastSentAnimation == IDLE
    {
      lastSentPosition, lastSentRotation, lastSentAnimation := Origin, Origin, IDLE;
    }

    /** The position effect: sends iff connected with a room and the
        position differs from the last one sent, which it then becomes. */
    method PositionEffect(ms: MultiplayerStore.Store, position: Vec3) returns (sent: Option<Message>)
      modifies this
      ensures sent.Some? <==> CanSend(ms) && position != old(lastSentPosition)
      ensures sent.Some? ==> sent.value == Message("position", MultiplayerStore.XyzPayload(position.x, position.y, position.z))
      ensures lastSentPosition == (if sent.Some? then position else old(lastSentPosition))
      ensures lastSentRotation == old(lastSentRotation) && lastSentAnimation == old(lastSentAnimation)
    {
      sent := None;
      if ms.connectionState != Connected || ms.room.None? {
        return;
      }
      var last := lastSentPosition;
      if position.x != last.x || position.y != last.y || position.z != last.z {
        sent := ms.SendPosition(position.x, position.y, position.z);
        lastSentPosition := position;
      }
    }

    /** The rotation effect: all three angles count. */
    method RotationEffect(ms: MultiplayerStore.Store, rotation: Vec3) returns (sent: Option<Message>)
      modifies this
      ensures sent.Some? <==> CanSend(ms) && rotation != old(lastSentRotation)
      ensures sent.Some? ==> sent.value == Message("rotation", MultiplayerStore.XyzPayload(rotation.x, rotation.y, rotation.z))
      ensures lastSentRotation == (if sent.Some? then rotation else old(lastSentRotation))
      ensures lastSentPosition == old(lastSentPosition) && lastSentAnimation == old(lastSentAnimation)
    {
      sent := None;
      if ms.connectionState != Connected || ms.room.None? {
        return;
      }
      var last := lastSentRotation;
      if rotation.x != last.x || rotation.y != last.y || rotation.z != last.z {
        sent := ms.SendRotation(rotation.x, rotation.y, rotation.z);
        lastSentRotation := rotation;
      }
    }

    method AnimationEffect(ms: MultiplayerStore.Store, animation: string) returns (sent: Option<Message>)
      modifies this
      ensures sent.Some? <==> CanSend(ms) && animation != old(lastSentAnimation)
      ensures sent.Some? ==> sent.value == Message("animation", map["animation" := Text(animation)])
      ensures lastSentAnimation == (if sent.Some? then animation else old(lastSentAnimation))
      ensures lastSentPosition == old(lastSentPosition) && lastSentRotation == old(lastSentRotation)
    {
      sent := None;
      if ms.connectionState != Connected || ms.room.None? {
        return;
      }
      if animation != lastSentAnimation {
        sent := ms.SendAnimation(animation);
        lastSentAnimation := animation;
      }
    }
  }

  /** A freshly mounted hook never sends "idle", and never sends a pose at
      the origin, however connected. */
  method FreshHookStaysQuiet(ms: MultiplayerStore.Store) returns (p: Option<Message>, r: Option<Message>, a: Option<Message>)
    ensures p.None? && r.None? && a.None?
  {
    var h := new Hook();
    p := h.PositionEffect(ms, Origin);
    r := h.RotationEffect(ms, Origin);
    a := h.AnimationEffect(ms, IDLE);
  }

  /** Re-running an effect right after a send sends nothing. */
  method PositionSentOnce(h: Hook, ms: MultiplayerStore.Store, position: Vec3)
    returns (first: Option<Message>, second: Option<Message>)
    modifies h
    ensures second.None?
  {
    first := h.PositionEffect(ms, position);
    second := h.PositionEffect(ms, position);
  }
}
