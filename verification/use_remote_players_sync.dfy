/** The `useRemotePlayersSync` hook (src/hooks/useRemotePlayersSync.ts):
    forwards every well-formed add and change event of the room's players
    to the registry's `addOrUpdatePlayer`, which the registry store does
    not define, so it goes to the upsert/remove/clear port. There is no
    filter on this client's own key. */
module UseRemotePlayersSync {
  import opened Wrappers
  import opened ColyseusTypes
  import opened StorePorts

  /** A room player as the handlers see it; `avatar` is not a schema field
      and is usually absent. */
  datatype EventPlayer = EventPlayer(
    username: string,
    avatar: Option<string>,
    position: Option<Vec3>,
    rotation: Option<Vec3>,
    animation: string)

  /** The object handed to `addOrUpdatePlayer`; the change handler supplies
      neither `sessionId` nor `username`. */
  datatype Upsert = Upsert(
    sessionId: Option<string>,
    username: Option<string>,
    avatar: Option<string>,
    position: Vec3,
    rotation: Vec3,
    animation: string)

  /** The guard both handlers share: a player with a position and a rotation. */
  predicate WellFormed(player: Option<EventPlayer>) {
    player.Some? && player.value.position.Some? && player.value.rotation.Some?
  }

  /** The upsert the add handler makes for a well-formed event. */
  function AddUpsert(key: string, p: EventPlayer): (u: Upsert)
    requires p.position.Some? && p.rotation.Some?
    ensures u.sessionId == Some(key) && u.username == Some(p.username)
    ensures u.position == p.position.value && u.rotation == p.rotation.value
    ensures u.avatar == p.avatar && u.animation == p.animation
  {
    Upsert(Some(key), Some(p.username), p.avatar, p.position.value, p.rotation.value, p.animation)
  }

  /** The upsert the change handler makes: the same pose, no identity. */
  function ChangeUpsert(p: EventPlayer): (u: Upsert)
    requires p.position.Some? && p.rotation.Some?
    ensures u.sessionId.None? && u.username.None?
    ensures u.position == p.position.value && u.rotation == p.rotation.value
    ensures u.avatar == p.avatar && u.animation == p.animation
  {
    Upsert(None, None, p.avatar, p.position.value, p.rotation.value, p.animation)
  }

  /** `onAdd`: a malformed event is dropped; any other is upserted under
      its key, whatever the key. */
  method OnAdd(player: Option<EventPlayer>, key: string, registry: RegistryPort<Upsert>)
    modifies registry
    ensures !WellFormed(player) ==> registry.calls == old(registry.calls)
    ensures WellFormed(player) ==> registry.calls == old(registry.calls) + [UpsertCall(key, AddUpsert(key, player.value))]
  {
    if player.None? || player.value.position.None? || player.value.rotation.None? {
      return;
    }
    registry.Upsert(key, AddUpsert(key, player.value));
  }

  /** `onChange`: the same guard, and never a name. */
  method OnChange(player: Option<EventPlayer>, key: string, registry: RegistryPort<Upsert>)
    modifies registry
    ensures !WellFormed(player) ==> registry.calls == old(registry.calls)
    ensures WellFormed(player) ==> registry.calls == old(registry.calls) + [UpsertCall(key, ChangeUpsert(player.value))]
  {
    if player.None? || player.value.position.None? || player.value.rotation.None? {
      return;
    }
    registry.Upsert(key, ChangeUpsert(player.value));
  }

  method OnRemove(key: string, registry: RegistryPort<Upsert>)
    modifies registry
    ensures registry.calls == old(registry.calls) + [RemoveCall(key)]
  {
    registry.Remove(key);
  }

  /** The three subscriptions, in the order the effect makes them. */
  datatype Channel = AddChannel | RemoveChannel | ChangeChannel

  /** The effect's subscriptions and the unsubscribers called so far. */
  class Subscription {
    var active: bool
    var unsubscribed: seq<Channel>

    constructor ()
      ensures !active && unsubscribed == []
    {
      active, unsubscribed := false, [];
    }

    /** The effect body: without a room state there is nothing to
        subscribe to and no clean-up; otherwise all three channels are
        subscribed. */
    method Subscribe(hasState: bool)
      requires !active
      modifies this
      ensures active == hasState && unsubscribed == old(unsubscribed)
    {
      active := hasState;
    }

    /** The clean-up React runs, when the effect returned one: each
        unsubscriber once, add, remove, change. */
    method Teardown()
      modifies this
      ensures !active
      ensures unsubscribed == old(unsubscribed) + (if old(active) then [AddChannel, RemoveChannel, ChangeChannel] else [])
    {
      if active {
        unsubscribed := unsubscribed + [AddChannel, RemoveChannel, ChangeChannel];
        active := false;
      }
    }
  }

  /** Subscribing and tearing down, even twice, calls every unsubscriber
      exactly once. */
  method MountUnmount(s: Subscription) returns (calls: seq<Channel>)
    requires !s.active && s.unsubscribed == []
    modifies s
    ensures calls == [AddChannel, RemoveChannel, ChangeChannel]
  {
    s.Subscribe(true);
    s.Teardown();
    s.Teardown();
    calls := s.unsubscribed;
  }
}
